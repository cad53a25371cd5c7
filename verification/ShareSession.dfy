/**
  One share session (engine/protocol/src/send.rs, `show_provide_progress_with_logging`).

  Every get request is served by its own cooperative task. Tasks interleave only at
  awaits, so a step below is the code between two awaits of one task. Two accounts of the
  same requests are kept: the ledger, and the counters `active` and `completed` that decide
  when `transfer-completed` is announced.
 */
module ShareSession {
  import opened Common
  import L = Ledger
  import opened Counting

  const DEBOUNCE_MS: nat := 500

  /** Where a task is suspended. `ending` tells the tail of the stream from the `Completed` arm. */
  datatype Phase =
    | Receiving
    | Reporting(offset: nat)
    | Sleeping(activeBefore: int, ending: bool)
    | Woken(activeBefore: int, completedAfter: nat, activeAfter: int, ending: bool)
    | LedgerRead(caughtUp: bool, busy: bool, ending: bool)
    | Emitting(ending: bool)
    | Done

  datatype Task = Task(key: L.Key, started: bool, finished: bool, phase: Phase)

  datatype Emission = TransferStarted | TransferCompleted | TransferFailed

  datatype Session = Session(
    ledger: L.Ledger,
    active: int,
    completed: nat,
    emittedStarted: bool,
    emittedCompleted: bool,
    lastRequest: Option<nat>,
    tasks: seq<Task>,
    events: seq<Emission>,
    closed: bool,
    over: bool)

  function NewSession(share: nat): Session {
    Session(L.NewLedger(share), 0, 0, false, false, None, [], [], false, false)
  }

  /** At least 95% of the payload was sent, compared with saturating 64-bit products. */
  predicate PayloadComplete(sent: nat, total: nat) {
    total == 0 || Min(sent * 100, U64_MAX) >= Min(total * 95, U64_MAX)
  }

  /** 95 of 100 bytes of the share are enough, and so is an amount whose hundredfold does not fit in 64 bits. */
  predicate Enough(sent: nat, total: nat) {
    100 * sent >= 95 * total || 100 * sent >= U64_MAX
  }

  lemma {:induction false} DeliveredIffEnough(sent: nat, total: nat)
    ensures PayloadComplete(sent, total) <==> Enough(sent, total)
    ensures 100 * total <= U64_MAX ==> (PayloadComplete(sent, total) <==> 100 * sent >= 95 * total)
  {
  }

  /** A request that sent everything is delivered, whatever the size of the share. */
  lemma {:induction false} WholeIsDelivered(total: nat)
    ensures PayloadComplete(total, total)
  {
  }

  datatype Action =
    | Arrive(key: L.Key, sizesProbe: bool, now: nat)
    | OnStarted(i: nat, index: nat, size: nat)
    | OnProgress(i: nat, offset: nat)
    | Report(i: nat)
    | OnCompleted(i: nat)
    | OnAborted(i: nat)
    | OnStreamEnd(i: nat)
    | Wake(i: nat)
    | ReadLedger(i: nat)
    | Decide(i: nat, now: nat)
    | Emit(i: nat)
    | Close
    | Finish

  // ------------------------------------------------------------------------ steps

  /** What one step of one task leaves behind; `call` is the call it makes on the ledger. */
  datatype Effect = Effect(
    task: Task,
    call: Option<L.Event>,
    active: int,
    completed: nat,
    emittedStarted: bool,
    emittedCompleted: bool,
    emits: seq<Emission>)

  ghost function Apply(s: Session, i: nat, e: Effect): Session
    requires i < |s.tasks|
  {
    s.(ledger := if e.call.Some? then L.Step(s.ledger, e.call.value) else s.ledger,
       active := e.active, completed := e.completed,
       emittedStarted := e.emittedStarted, emittedCompleted := e.emittedCompleted,
       tasks := s.tasks[i := e.task], events := s.events + e.emits)
  }

  function Quiet(s: Session, t: Task): Effect {
    Effect(t, None, s.active, s.completed, s.emittedStarted, s.emittedCompleted, [])
  }

  /** The first sign of life of a request announces the transfer, once per session. */
  function Begin(s: Session, t: Task, next: Task): Effect {
    if t.started || s.emittedStarted then Quiet(s, next.(started := true))
    else Quiet(s, next.(started := true)).(emittedStarted := true, emits := [TransferStarted])
  }

  function Resume(ending: bool): Phase {
    if ending then Done else Receiving
  }

  /** The task's request leaves the ledger, with credit when its payload was delivered. */
  function Retired(s: Session, t: Task, delivered: bool): Effect {
    Quiet(s, t.(finished := true)).(call := Some(L.Retire(t.key, delivered)))
  }

  /** Settle the counters, and start the debounce when every request is accounted for. */
  function Settle(s: Session, t: Task, delivered: bool, ending: bool): Effect {
    var e := Retired(s, t.(phase := Resume(ending)), delivered);
    if !delivered then e.(active := s.active - 1)
    else if s.completed + 1 < s.active then e.(completed := s.completed + 1)
    else e.(completed := s.completed + 1, task := e.task.(phase := Sleeping(s.active, ending)))
  }

  /** An aborted request counts as completed, whatever it delivered. */
  function Abort(s: Session, t: Task, delivered: bool): Effect {
    Retired(s, t, delivered).(completed := s.completed + 1,
                   emits := if s.completed + 1 >= s.active then [TransferFailed] else [])
  }

  predicate Recent(last: Option<nat>, now: nat) {
    last.Some? && SaturatingSub(now, last.value) < DEBOUNCE_MS
  }

  predicate CaughtUp(completed: nat, active: int) {
    completed >= active && completed >= 1
  }

  predicate IsTaskAction(a: Action) {
    !a.Arrive? && !a.Close? && !a.Finish?
  }

  /** An update arrives on the request's channel. */
  function UpdateEffect(s: Session, t: Task, a: Action, delivered: bool): Effect {
    match a
    case OnStarted(_, index, size) =>
      Begin(s, t, t).(call := Some(L.BlobStart(t.key, index, size)))
    case OnProgress(_, offset) =>
      var e := Begin(s, t, t.(phase := Reporting(offset)));
      if t.started then e else e.(call := Some(L.Ensure(t.key)))
    case OnCompleted(_) =>
      if t.started && !t.finished then Settle(s, t, delivered, false) else Quiet(s, t)
    case OnAborted(_) =>
      if t.started && !t.finished then Abort(s, t, delivered) else Quiet(s, t)
    case OnStreamEnd(_) =>
      if t.started && !t.finished then Settle(s, t, delivered, true) else Quiet(s, t.(phase := Done))
    case _ => Quiet(s, t)
  }

  /** The task goes on after an await inside an update. */
  function ResumeEffect(s: Session, t: Task, a: Action): Effect {
    match t.phase
    case Reporting(offset) =>
      if !a.Report? then Quiet(s, t)
      else Quiet(s, t.(phase := Receiving)).(call := Some(L.BlobReport(t.key, offset)))
    case Sleeping(before, ending) =>
      if !a.Wake? then Quiet(s, t)
      else Quiet(s, t.(phase := Woken(before, s.completed, s.active, ending)))
    case Woken(before, completed, active, ending) =>
      if !a.ReadLedger? then Quiet(s, t)
      else
        var caughtUp := CaughtUp(completed, active) && !(active > before);
        Quiet(s, t.(phase := LedgerRead(caughtUp, |s.ledger.active| > 0, ending)))
    case LedgerRead(caughtUp, busy, ending) =>
      if !a.Decide? then Quiet(s, t)
      else if caughtUp && !busy && !Recent(s.lastRequest, a.now) && !s.emittedCompleted
      then Quiet(s, t.(phase := Emitting(ending))).(emittedCompleted := true)
      else Quiet(s, t.(phase := Resume(ending)))
    case Emitting(ending) =>
      if !a.Emit? then Quiet(s, t)
      else Quiet(s, t.(phase := Resume(ending))).(emits := [TransferCompleted])
    case _ => Quiet(s, t)
  }

  function TaskEffect(s: Session, t: Task, a: Action, delivered: bool): Effect {
    if t.phase == Receiving then UpdateEffect(s, t, a, delivered) else ResumeEffect(s, t, a)
  }

  ghost predicate Delivered(s: Session, t: Task) {
    PayloadComplete(L.RequestBytes(s.ledger, t.key), s.ledger.share)
  }

  ghost function EffectAt(s: Session, a: Action): Effect
    requires IsTaskAction(a) && a.i < |s.tasks|
  {
    TaskEffect(s, s.tasks[a.i], a, Delivered(s, s.tasks[a.i]))
  }

  ghost function Step(s: Session, a: Action): Session {
    if IsTaskAction(a) then
      if a.i < |s.tasks| then Apply(s, a.i, EffectAt(s, a)) else s
    else
      match a
      case Arrive(key, sizesProbe, now) =>
        if s.closed || sizesProbe then s
        else s.(active := s.active + 1, lastRequest := Some(now),
                tasks := s.tasks + [Task(key, false, false, Receiving)])
      case Close => s.(closed := true)
      case _ =>
        if !s.closed || s.over || exists t :: t in s.tasks && t.phase != Done then s
        else if CaughtUp(s.completed, s.active) && !s.emittedCompleted
        then s.(emittedCompleted := true, events := s.events + [TransferCompleted], over := true)
        else s.(over := true)
  }

  ghost function Run(s: Session, actions: seq<Action>): Session {
    if actions == [] then s else Step(Run(s, actions[..|actions| - 1]), actions[|actions| - 1])
  }

  // ----------------------------------------------------------- the counters, exactly

  predicate IsOpen(t: Task) { !t.finished }

  predicate IsEmitting(t: Task) { t.phase.Emitting? }

  /** Requests that have neither been counted as completed nor taken out of `active`. */
  function OpenRequests(s: Session): nat {
    Count(s.tasks, IsOpen)
  }

  predicate CountersAgree(s: Session) {
    s.active == s.completed + OpenRequests(s) && s.ledger.finishedRequests <= s.completed
  }

  predicate GoodTask(t: Task, completed: nat, emittedStarted: bool) {
    && (t.started ==> emittedStarted)
    && (t.finished ==> t.started)
    && (t.phase.Woken? ==> t.phase.completedAfter <= completed)
    && (t.phase.LedgerRead? && t.phase.caughtUp ==> completed >= 1)
    && (t.phase.Emitting? ==> completed >= 1)
  }

  predicate TasksGood(s: Session) {
    && (forall j :: 0 <= j < |s.tasks| ==> GoodTask(s.tasks[j], s.completed, s.emittedStarted))
    && (s.completed >= 1 ==> s.emittedStarted)
  }

  predicate IsCompletion(e: Emission) { e == TransferCompleted }

  /** `transfer-started` opens the emissions, and `transfer-completed` is emitted or reserved at most once. */
  predicate EventsGood(s: Session) {
    && (s.emittedStarted <==> s.events != [])
    && (s.events != [] ==> s.events[0] == TransferStarted)
    && (forall j :: 0 < j < |s.events| ==> s.events[j] != TransferStarted)
    && Count(s.events, IsCompletion) + Count(s.tasks, IsEmitting) == (if s.emittedCompleted then 1 else 0)
  }

  /** What every step keeps, on any sequence of updates. */
  predicate Inv(s: Session) {
    CountersAgree(s) && TasksGood(s) && EventsGood(s)
  }

  lemma {:induction false} ApplyCounts(s: Session, i: nat, e: Effect)
    requires i < |s.tasks|
    ensures OpenRequests(Apply(s, i, e)) + One(IsOpen(s.tasks[i])) == OpenRequests(s) + One(IsOpen(e.task))
    ensures Count(Apply(s, i, e).tasks, IsEmitting) + One(IsEmitting(s.tasks[i]))
            == Count(s.tasks, IsEmitting) + One(IsEmitting(e.task))
  {
    CountUpdate(s.tasks, i, e.task, IsOpen);
    CountUpdate(s.tasks, i, e.task, IsEmitting);
  }

  /** A request leaves `active - completed` exactly when it stops being open. */
  predicate Balanced(s: Session, t: Task, e: Effect) {
    e.active - e.completed + One(IsOpen(t)) == s.active - s.completed + One(IsOpen(e.task))
  }

  /** Only a request that is counted as completed earns credit in the ledger. */
  predicate Credited(s: Session, e: Effect) {
    && s.completed <= e.completed
    && (e.call.Some? && e.call.value.Retire? && e.call.value.credited ==> e.completed == s.completed + 1)
  }

  /** A step emits `transfer-started` first, and `transfer-completed` only in a slot it reserved. */
  predicate GoodEmits(s: Session, t: Task, e: Effect) {
    && (e.emits == [] || e.emits == [TransferStarted] || e.emits == [TransferCompleted] || e.emits == [TransferFailed])
    && (e.emits == [TransferStarted] <==> e.emittedStarted && !s.emittedStarted)
    && (e.emits != [] || s.emittedStarted ==> e.emittedStarted)
    && One(e.emits == [TransferCompleted]) + One(IsEmitting(e.task)) + One(s.emittedCompleted)
       == One(IsEmitting(t)) + One(e.emittedCompleted)
  }

  predicate GoodEffect(s: Session, t: Task, e: Effect) {
    && e.task.key == t.key
    && Balanced(s, t, e)
    && Credited(s, e)
    && GoodTask(e.task, e.completed, e.emittedStarted)
    && (e.completed >= 1 ==> e.emittedStarted)
    && GoodEmits(s, t, e)
  }

  /** The start of every task step: the counters and the task have told the truth so far. */
  predicate Ready(s: Session, t: Task) {
    GoodTask(t, s.completed, s.emittedStarted) && (s.completed >= 1 ==> s.emittedStarted)
  }

  lemma {:induction false} BeginIsGood(s: Session, t: Task, next: Task, call: Option<L.Event>)
    requires Ready(s, t) && t.phase == Receiving
    requires next == t || exists offset :: next == t.(phase := Reporting(offset))
    requires call.Some? ==> !call.value.Retire?
    ensures GoodEffect(s, t, Begin(s, t, next).(call := call))
  {
  }

  lemma {:induction false} SettleIsGood(s: Session, t: Task, delivered: bool, ending: bool)
    requires Ready(s, t) && t.phase == Receiving && t.started && !t.finished
    ensures GoodEffect(s, t, Settle(s, t, delivered, ending))
  {
  }

  lemma {:induction false} AbortIsGood(s: Session, t: Task, delivered: bool)
    requires Ready(s, t) && t.phase == Receiving && t.started && !t.finished
    ensures GoodEffect(s, t, Abort(s, t, delivered))
  {
  }

  lemma {:induction false} UpdateIsGood(s: Session, t: Task, a: Action, delivered: bool)
    requires Ready(s, t) && t.phase == Receiving
    ensures GoodEffect(s, t, UpdateEffect(s, t, a, delivered))
  {
    match a
    case OnStarted(_, index, size) =>
      BeginIsGood(s, t, t, Some(L.BlobStart(t.key, index, size)));
    case OnProgress(_, offset) =>
      BeginIsGood(s, t, t.(phase := Reporting(offset)), if t.started then None else Some(L.Ensure(t.key)));
    case OnCompleted(_) =>
      if t.started && !t.finished { SettleIsGood(s, t, delivered, false); }
    case OnAborted(_) =>
      if t.started && !t.finished { AbortIsGood(s, t, delivered); }
    case OnStreamEnd(_) =>
      if t.started && !t.finished { SettleIsGood(s, t, delivered, true); }
    case _ =>
  }

  lemma {:induction false} ResumeIsGood(s: Session, t: Task, a: Action)
    requires Ready(s, t) && t.phase != Receiving
    ensures GoodEffect(s, t, ResumeEffect(s, t, a))
  {
  }

  lemma {:induction false} EffectIsGood(s: Session, a: Action)
    requires TasksGood(s) && IsTaskAction(a) && a.i < |s.tasks|
    ensures GoodEffect(s, s.tasks[a.i], EffectAt(s, a))
  {
    var t := s.tasks[a.i];
    if t.phase == Receiving {
      UpdateIsGood(s, t, a, Delivered(s, t));
    } else {
      ResumeIsGood(s, t, a);
    }
  }

  lemma {:induction false} CountersStep(s: Session, a: Action)
    requires CountersAgree(s) && TasksGood(s)
    ensures CountersAgree(Step(s, a))
  {
    if a.Arrive? {
      CountAppend(s.tasks, Task(a.key, false, false, Receiving), IsOpen);
    } else if IsTaskAction(a) && a.i < |s.tasks| {
      EffectIsGood(s, a);
      ApplyKeepsCounters(s, a.i, EffectAt(s, a));
    }
  }

  lemma {:induction false} ApplyKeepsCounters(s: Session, i: nat, e: Effect)
    requires CountersAgree(s) && i < |s.tasks| && Balanced(s, s.tasks[i], e) && Credited(s, e)
    ensures CountersAgree(Apply(s, i, e))
  {
    ApplyCounts(s, i, e);
  }

  lemma {:induction false} TasksStep(s: Session, a: Action)
    requires TasksGood(s)
    ensures TasksGood(Step(s, a))
  {
    if IsTaskAction(a) && a.i < |s.tasks| {
      EffectIsGood(s, a);
      ApplyKeepsTasks(s, a.i, EffectAt(s, a));
    }
  }

  lemma {:induction false} ApplyKeepsTasks(s: Session, i: nat, e: Effect)
    requires TasksGood(s) && i < |s.tasks| && GoodEffect(s, s.tasks[i], e)
    ensures TasksGood(Apply(s, i, e))
  {
    var s' := Apply(s, i, e);
    forall j | 0 <= j < |s'.tasks| ensures GoodTask(s'.tasks[j], s'.completed, s'.emittedStarted) {
      assert j != i ==> GoodTask(s.tasks[j], s.completed, s.emittedStarted);
    }
  }

  lemma {:induction false} ArrivalKeepsEvents(s: Session, a: Action)
    requires EventsGood(s) && a.Arrive?
    ensures EventsGood(Step(s, a))
  {
    CountAppend(s.tasks, Task(a.key, false, false, Receiving), IsEmitting);
  }

  lemma {:induction false} FinishKeepsEvents(s: Session)
    requires TasksGood(s) && EventsGood(s)
    ensures EventsGood(Step(s, Finish))
  {
    CountAppend(s.events, TransferCompleted, IsCompletion);
  }

  lemma {:induction false} EventsStep(s: Session, a: Action)
    requires TasksGood(s) && EventsGood(s)
    ensures EventsGood(Step(s, a))
  {
    if a.Arrive? {
      ArrivalKeepsEvents(s, a);
    } else if a.Finish? {
      FinishKeepsEvents(s);
    } else if IsTaskAction(a) && a.i < |s.tasks| {
      EffectIsGood(s, a);
      ApplyKeepsEvents(s, a.i, EffectAt(s, a));
    }
  }

  lemma {:induction false} ApplyKeepsEvents(s: Session, i: nat, e: Effect)
    requires EventsGood(s) && i < |s.tasks| && GoodEmits(s, s.tasks[i], e)
    ensures EventsGood(Apply(s, i, e))
  {
    ApplyCounts(s, i, e);
    EventsAppend(s.events, e.emits);
  }

  /** A move's emissions are at most one event, so they count as it does. */
  lemma {:induction false} EventsAppend(events: seq<Emission>, emits: seq<Emission>)
    requires |emits| <= 1
    ensures Count(events + emits, IsCompletion) == Count(events, IsCompletion) + One(emits == [TransferCompleted])
  {
    if emits == [] {
      assert events + emits == events;
    } else {
      assert emits == [emits[0]];
      CountAppend(events, emits[0], IsCompletion);
    }
  }

  lemma {:induction false} RunKeepsInv(share: nat, actions: seq<Action>)
    ensures Inv(Run(NewSession(share), actions))
  {
    if actions != [] {
      var before, a := Run(NewSession(share), actions[..|actions| - 1]), actions[|actions| - 1];
      RunKeepsInv(share, actions[..|actions| - 1]);
      CountersStep(before, a);
      TasksStep(before, a);
      EventsStep(before, a);
    }
  }

  /** `transfer-completed` is announced at most once, and never before `transfer-started`. */
  lemma {:induction false} CompletionAnnouncedOnce(share: nat, actions: seq<Action>)
    ensures var events := Run(NewSession(share), actions).events;
            && Count(events, IsCompletion) <= 1
            && (forall j :: 0 <= j < |events| && events[j] == TransferCompleted ==> 0 < j)
            && (forall j :: 0 <= j < |events| ==> (events[j] == TransferStarted <==> j == 0))
  {
    RunKeepsInv(share, actions);
  }

  // --------------------------------------------------- the ledger against the counters

  predicate Running(t: Task) { t.started && !t.finished }

  predicate Serves(tasks: seq<Task>, j: nat, key: L.Key) {
    j < |tasks| && tasks[j].key == key && Running(tasks[j])
  }

  /** Every ledger entry belongs to a request that is still running. */
  ghost predicate TracksRunning(s: Session) {
    forall k :: k in s.ledger.active ==> exists j: nat :: Serves(s.tasks, j, k)
  }

  /** A `Started` update on a request that was already retired. */
  predicate LateStart(s: Session, a: Action) {
    a.OnStarted? && a.i < |s.tasks| && s.tasks[a.i].phase == Receiving && s.tasks[a.i].finished
  }

  /** A step that stops the request retires its entry; a step that adds an entry leaves the request running. */
  predicate LedgerFollows(t: Task, e: Effect) {
    && e.task.key == t.key
    && (e.call.Some? ==> e.call.value.key == t.key)
    && (Running(t) && !Running(e.task) ==> e.call.Some? && e.call.value.Retire?)
    && (e.call.Some? && (e.call.value.BlobStart? || e.call.value.Ensure?) ==> Running(e.task))
  }

  lemma {:induction false} UpdateFollows(s: Session, t: Task, a: Action, delivered: bool)
    requires t.phase == Receiving && (t.finished ==> t.started) && !(a.OnStarted? && t.finished)
    ensures LedgerFollows(t, UpdateEffect(s, t, a, delivered))
  {
  }

  lemma {:induction false} ResumeFollows(s: Session, t: Task, a: Action)
    ensures LedgerFollows(t, ResumeEffect(s, t, a))
  {
  }

  lemma {:induction false} EffectFollows(s: Session, t: Task, a: Action, delivered: bool)
    requires GoodTask(t, s.completed, s.emittedStarted)
    requires !(a.OnStarted? && t.phase == Receiving && t.finished)
    ensures LedgerFollows(t, TaskEffect(s, t, a, delivered))
  {
    if t.phase == Receiving {
      UpdateFollows(s, t, a, delivered);
    } else {
      ResumeFollows(s, t, a);
    }
  }

  lemma {:induction false} ApplyTracks(s: Session, i: nat, e: Effect, k: L.Key)
    requires TracksRunning(s) && i < |s.tasks| && LedgerFollows(s.tasks[i], e)
    requires k in Apply(s, i, e).ledger.active
    ensures exists j: nat :: Serves(Apply(s, i, e).tasks, j, k)
  {
    var tasks := Apply(s, i, e).tasks;
    if k == e.task.key && Running(e.task) {
      assert Serves(tasks, i, k);
    } else {
      assert k in s.ledger.active;
      var j: nat :| Serves(s.tasks, j, k);
      assert Serves(tasks, j, k);
    }
  }

  lemma {:induction false} TracksStep(s: Session, a: Action)
    requires TracksRunning(s) && TasksGood(s) && !LateStart(s, a)
    ensures TracksRunning(Step(s, a))
  {
    var s' := Step(s, a);
    if IsTaskAction(a) && a.i < |s.tasks| {
      EffectFollows(s, s.tasks[a.i], a, Delivered(s, s.tasks[a.i]));
      forall k | k in s'.ledger.active ensures exists j: nat :: Serves(s'.tasks, j, k) {
        ApplyTracks(s, a.i, EffectAt(s, a), k);
      }
    } else {
      forall k | k in s'.ledger.active ensures exists j: nat :: Serves(s'.tasks, j, k) {
        var j: nat :| Serves(s.tasks, j, k);
        assert Serves(s'.tasks, j, k);
      }
    }
  }

  /** Keys of the requests that satisfy `p`. */
  function KeysOf(tasks: seq<Task>, p: Task -> bool): set<L.Key> {
    if tasks == [] then {}
    else KeysOf(tasks[..|tasks| - 1], p) + (if p(tasks[|tasks| - 1]) then {tasks[|tasks| - 1].key} else {})
  }

  lemma {:induction false} KeysOfHas(tasks: seq<Task>, p: Task -> bool, key: L.Key)
    ensures key in KeysOf(tasks, p) <==> exists j :: 0 <= j < |tasks| && tasks[j].key == key && p(tasks[j])
  {
    if tasks != [] {
      var last := |tasks| - 1;
      KeysOfHas(tasks[..last], p, key);
      assert forall j :: 0 <= j < last ==> tasks[..last][j] == tasks[j];
    }
  }

  lemma {:induction false} KeysOfCount(tasks: seq<Task>, p: Task -> bool)
    ensures |KeysOf(tasks, p)| <= Count(tasks, p)
    ensures DistinctKeys(tasks) ==> |KeysOf(tasks, p)| == Count(tasks, p)
  {
    if tasks != [] {
      var last := |tasks| - 1;
      KeysOfCount(tasks[..last], p);
      KeysOfHas(tasks[..last], p, tasks[last].key);
    }
  }

  predicate IsUnstarted(t: Task) { !t.started }

  /** The unfinished requests are the running ones and the ones that never started. */
  lemma {:induction false} OpenAreRunningOrUnstarted(tasks: seq<Task>)
    requires forall j :: 0 <= j < |tasks| && tasks[j].finished ==> tasks[j].started
    ensures Count(tasks, IsOpen) == Count(tasks, Running) + Count(tasks, IsUnstarted)
  {
    if tasks != [] {
      OpenAreRunningOrUnstarted(tasks[..|tasks| - 1]);
    }
  }

  lemma {:induction false} TrackedAreFew(s: Session)
    requires TracksRunning(s) && TasksGood(s)
    ensures |s.ledger.active| <= OpenRequests(s)
  {
    forall k | k in s.ledger.active ensures k in KeysOf(s.tasks, Running) {
      var j: nat :| Serves(s.tasks, j, k);
      KeysOfHas(s.tasks, Running, k);
    }
    SubsetSize(s.ledger.active.Keys, KeysOf(s.tasks, Running));
    KeysOfCount(s.tasks, Running);
    OpenAreRunningOrUnstarted(s.tasks);
  }

  ghost predicate NoLateStarts(s: Session, actions: seq<Action>) {
    forall n :: 0 <= n < |actions| ==> !LateStart(Run(s, actions[..n]), actions[n])
  }

  lemma {:induction false} RunTracks(share: nat, actions: seq<Action>)
    requires NoLateStarts(NewSession(share), actions)
    ensures TracksRunning(Run(NewSession(share), actions))
  {
    if actions != [] {
      var last := |actions| - 1;
      var prefix := actions[..last];
      forall n | 0 <= n < last ensures !LateStart(Run(NewSession(share), prefix[..n]), prefix[n]) {
        assert prefix[..n] == actions[..n];
      }
      RunTracks(share, prefix);
      RunKeepsInv(share, prefix);
      TracksStep(Run(NewSession(share), prefix), actions[last]);
    }
  }

  /**
    The two accounts agree: counted requests and ledger entries together never exceed the
    requests that arrived, and the announced total never exceeds one share per request.
   */
  lemma {:induction false} AccountsAgree(share: nat, actions: seq<Action>)
    requires NoLateStarts(NewSession(share), actions)
    ensures var s := Run(NewSession(share), actions);
            && s.completed + |s.ledger.active| <= s.active
            && s.ledger.finishedRequests + |s.ledger.active| <= s.active
            && L.SnapshotOf(s.ledger).total <= SaturatingMul(s.ledger.share, s.active)
  {
    RunKeepsInv(share, actions);
    RunTracks(share, actions);
    var s := Run(NewSession(share), actions);
    TrackedAreFew(s);
    TotalWithin(s.ledger, s.active);
  }

  lemma {:induction false} TotalWithin(l: L.Ledger, requests: nat)
    requires l.finishedRequests + |l.active| <= requests
    ensures L.SnapshotOf(l).total <= SaturatingMul(l.share, requests)
  {
    var counted := l.finishedRequests + |l.active|;
    TimesAdds(l.share, counted, requests - counted);
  }

  /** The completion check sees `completed >= active` exactly when no request is open, and then the ledger is empty. */
  lemma {:induction false} CaughtUpIffAllFinished(share: nat, actions: seq<Action>)
    ensures var s := Run(NewSession(share), actions);
            && (s.completed >= s.active <==> forall t :: t in s.tasks ==> t.finished)
            && (NoLateStarts(NewSession(share), actions) && s.completed >= s.active ==> s.ledger.active == map[])
  {
    RunKeepsInv(share, actions);
    var s := Run(NewSession(share), actions);
    CountZero(s.tasks, IsOpen);
    if NoLateStarts(NewSession(share), actions) && s.completed >= s.active {
      RunTracks(share, actions);
      TrackedAreFew(s);
      assert |s.ledger.active.Keys| == 0;
    }
  }

  /** The task at `i` ended without ever being started. */
  predicate EndedUnstarted(s: Session, i: nat) {
    i < |s.tasks| && s.tasks[i].phase == Done && !s.tasks[i].finished
  }

  lemma {:induction false} DoneStays(s: Session, a: Action, i: nat)
    requires i < |s.tasks| && s.tasks[i].phase == Done
    ensures i < |Step(s, a).tasks| && Step(s, a).tasks[i] == s.tasks[i]
  {
    if IsTaskAction(a) && a.i < |s.tasks| {
      DoneIsQuiet(s, s.tasks[a.i], a, Delivered(s, s.tasks[a.i]));
      assert Step(s, a).tasks == s.tasks[a.i := EffectAt(s, a).task];
    }
  }

  lemma {:induction false} DoneIsQuiet(s: Session, t: Task, a: Action, delivered: bool)
    ensures t.phase == Done ==> TaskEffect(s, t, a, delivered) == Quiet(s, t)
  {
  }

  lemma {:induction false} EndedUnstartedStays(s: Session, actions: seq<Action>, k: nat, i: nat)
    requires k <= |actions| && EndedUnstarted(Run(s, actions[..k]), i)
    ensures EndedUnstarted(Run(s, actions), i)
    decreases |actions|
  {
    if k == |actions| {
      assert actions[..k] == actions;
    } else {
      var prefix := actions[..|actions| - 1];
      assert prefix[..k] == actions[..k];
      EndedUnstartedStays(s, prefix, k, i);
      DoneStays(Run(s, prefix), actions[|actions| - 1], i);
    }
  }

  /** A request whose stream ends before any update keeps the counters apart for the rest of the session. */
  lemma {:induction false} UnstartedEndBlocksCompletion(share: nat, actions: seq<Action>, k: nat, i: nat)
    requires k <= |actions| && EndedUnstarted(Run(NewSession(share), actions[..k]), i)
    ensures var s := Run(NewSession(share), actions); s.completed < s.active
  {
    EndedUnstartedStays(NewSession(share), actions, k, i);
    CaughtUpIffAllFinished(share, actions);
    var s := Run(NewSession(share), actions);
    assert s.tasks[i] in s.tasks;
  }

  ghost predicate Reached(s: Session, share: nat) {
    exists actions :: s == Run(NewSession(share), actions)
  }

  lemma {:induction false} ReachedNext(s: Session, share: nat, a: Action) returns (after: Session)
    requires Reached(s, share)
    ensures Reached(after, share) && after == Step(s, a)
  {
    var actions :| s == Run(NewSession(share), actions);
    after := Run(NewSession(share), actions + [a]);
    assert (actions + [a])[..|actions|] == actions;
  }

  // ---------------------------------------------------------------- what the debounce is for

  /** A request arrived, and by `now` it is at least half a second old. */
  predicate OldArrival(a: Action, now: nat) {
    a.Arrive? && !a.sizesProbe && a.now + 500 <= now
  }

  /** Task `i` does nothing but read the ledger. */
  predicate OnlyReads(actions: seq<Action>, i: nat) {
    forall a :: a in actions && IsTaskAction(a) && a.i == i ==> a.ReadLedger?
  }

  /** The task waits with the counters it read, and after reading the ledger with what it concluded from them. */
  predicate Awaits(t: Task, caughtUp: bool) {
    (t.phase.Woken?
     && (CaughtUp(t.phase.completedAfter, t.phase.activeAfter) && t.phase.activeAfter <= t.phase.activeBefore ==>
           caughtUp))
    || (t.phase.LedgerRead? && (t.phase.caughtUp ==> caughtUp))
  }

  predicate FinishedStay(before: seq<Task>, after: seq<Task>) {
    |before| <= |after| && forall j :: 0 <= j < |before| && before[j].finished ==> after[j].finished
  }

  /** What a step by anyone means for a task that waits. */
  lemma {:induction false} MeanwhileStep(s: Session, a: Action, i: nat, caughtUp: bool)
    requires TasksGood(s) && i < |s.tasks| && Awaits(s.tasks[i], caughtUp) && OnlyReads([a], i)
    ensures var s' := Step(s, a);
            && i < |s'.tasks| && Awaits(s'.tasks[i], caughtUp) && FinishedStay(s.tasks, s'.tasks)
            && (if a.Arrive? && !a.sizesProbe && !s.closed then s'.lastRequest == Some(a.now)
                else s'.lastRequest == s.lastRequest && |s'.tasks| == |s.tasks|)
  {
    assert a in [a];
    if IsTaskAction(a) && a.i < |s.tasks| {
      EffectEntry(s, a);
      assert Step(s, a).tasks == s.tasks[a.i := EffectAt(s, a).task];
    }
  }

  /** While a task waits, either nobody arrives, or the last request is one of those that did. */
  lemma {:induction false} Meanwhile(s: Session, middle: seq<Action>, i: nat, caughtUp: bool)
    requires TasksGood(s) && i < |s.tasks| && Awaits(s.tasks[i], caughtUp) && OnlyReads(middle, i)
    ensures var s' := Run(s, middle);
            && TasksGood(s') && i < |s'.tasks| && Awaits(s'.tasks[i], caughtUp) && FinishedStay(s.tasks, s'.tasks)
            && (|s'.tasks| == |s.tasks|
                || exists a :: a in middle && a.Arrive? && !a.sizesProbe && s'.lastRequest == Some(a.now))
  {
    if middle != [] {
      var prefix, a := middle[..|middle| - 1], middle[|middle| - 1];
      assert a in middle && forall b :: b in prefix ==> b in middle;
      Meanwhile(s, prefix, i, caughtUp);
      TasksStep(Run(s, prefix), a);
      MeanwhileStep(Run(s, prefix), a, i, caughtUp);
    }
  }

  /** Task `i` takes the one slot for the announcement. */
  ghost predicate Reserves(s: Session, i: nat, now: nat) {
    i < |s.tasks| && !s.tasks[i].phase.Emitting?
    && i < |Step(s, Decide(i, now)).tasks| && Step(s, Decide(i, now)).tasks[i].phase.Emitting?
  }

  /**
    The debounce. After any run a sleeping task wakes, others do anything while it reads the ledger,
    and it reserves the announcement: then no more requests are active than when it fell asleep, and
    every request that has arrived is finished at that very step, unless one arrived since the task
    woke and half a second has passed since.
   */
  lemma {:induction false} DebounceHolds(share: nat, actions: seq<Action>, i: nat, middle: seq<Action>, now: nat)
    requires var s := Run(NewSession(share), actions); i < |s.tasks| && s.tasks[i].phase.Sleeping?
    requires OnlyReads(middle, i)
    requires Reserves(Run(Step(Run(NewSession(share), actions), Wake(i)), middle), i, now)
    ensures var s := Run(Step(Run(NewSession(share), actions), Wake(i)), middle);
            (forall t :: t in s.tasks ==> t.finished) || exists a :: a in middle && OldArrival(a, now)
    ensures var s := Run(NewSession(share), actions); s.active <= s.tasks[i].phase.activeBefore
  {
    RunKeepsInv(share, actions);
    CaughtUpIffAllFinished(share, actions);
    WakeThenDecide(Run(NewSession(share), actions), i, middle, now);
  }

  lemma {:induction false} WakeThenDecide(s: Session, i: nat, middle: seq<Action>, now: nat)
    requires TasksGood(s) && i < |s.tasks| && s.tasks[i].phase.Sleeping? && OnlyReads(middle, i)
    requires s.completed >= s.active ==> forall t :: t in s.tasks ==> t.finished
    requires Reserves(Run(Step(s, Wake(i)), middle), i, now)
    ensures var s' := Run(Step(s, Wake(i)), middle);
            (forall t :: t in s'.tasks ==> t.finished) || exists a :: a in middle && OldArrival(a, now)
    ensures s.active <= s.tasks[i].phase.activeBefore
  {
    var woken := Step(s, Wake(i));
    var caughtUp := CaughtUp(s.completed, s.active) && s.active <= s.tasks[i].phase.activeBefore;
    TasksStep(s, Wake(i));
    WokenAwaits(s, i);
    Meanwhile(woken, middle, i, caughtUp);
    ReservesWhenQuiet(Run(woken, middle), i, now, caughtUp);
  }

  lemma {:induction false} WokenAwaits(s: Session, i: nat)
    requires i < |s.tasks| && s.tasks[i].phase.Sleeping?
    ensures var woken := Step(s, Wake(i));
            && |woken.tasks| == |s.tasks|
            && Awaits(woken.tasks[i], CaughtUp(s.completed, s.active) && s.active <= s.tasks[i].phase.activeBefore)
            && forall j :: 0 <= j < |s.tasks| ==> woken.tasks[j].finished == s.tasks[j].finished
  {
  }

  lemma {:induction false} ReservesWhenQuiet(s: Session, i: nat, now: nat, caughtUp: bool)
    requires i < |s.tasks| && Awaits(s.tasks[i], caughtUp) && Reserves(s, i, now)
    ensures caughtUp && !Recent(s.lastRequest, now)
  {
  }

  /** The task found the ledger empty. */
  predicate FoundEmpty(t: Task) {
    t.phase.LedgerRead? && !t.phase.busy
  }

  /** Step `n` of the run read the ledger, and it was empty. */
  ghost predicate ReadsEmpty(s: Session, middle: seq<Action>, i: nat, n: nat) {
    n < |middle| && middle[n] == ReadLedger(i) && Run(s, middle[..n]).ledger.active == map[]
  }

  lemma {:induction false} FoundStep(s: Session, a: Action, i: nat)
    requires TasksGood(s) && i < |s.tasks| && (s.tasks[i].phase.Woken? || s.tasks[i].phase.LedgerRead?)
    requires OnlyReads([a], i)
    ensures var s' := Step(s, a);
            && i < |s'.tasks| && (s'.tasks[i].phase.Woken? || s'.tasks[i].phase.LedgerRead?)
            && (FoundEmpty(s'.tasks[i]) ==> FoundEmpty(s.tasks[i]) || (a == ReadLedger(i) && |s.ledger.active| == 0))
  {
    assert a in [a];
    if IsTaskAction(a) && a.i < |s.tasks| {
      assert Step(s, a).tasks == s.tasks[a.i := EffectAt(s, a).task];
    }
  }

  lemma {:induction false} FoundEmptyOnce(s: Session, middle: seq<Action>, i: nat)
    requires TasksGood(s) && i < |s.tasks| && s.tasks[i].phase.Woken? && OnlyReads(middle, i)
    ensures var s' := Run(s, middle);
            && TasksGood(s') && i < |s'.tasks| && (s'.tasks[i].phase.Woken? || s'.tasks[i].phase.LedgerRead?)
            && (FoundEmpty(s'.tasks[i]) ==> exists n: nat :: ReadsEmpty(s, middle, i, n))
  {
    if middle != [] {
      var last := |middle| - 1;
      var prefix, a := middle[..last], middle[last];
      assert a in middle && forall b :: b in prefix ==> b in middle;
      FoundEmptyOnce(s, prefix, i);
      TasksStep(Run(s, prefix), a);
      FoundStep(Run(s, prefix), a, i);
      forall n: nat | ReadsEmpty(s, prefix, i, n) ensures ReadsEmpty(s, middle, i, n) {
        assert prefix[..n] == middle[..n];
      }
      if a == ReadLedger(i) && |Run(s, prefix).ledger.active| == 0 {
        assert ReadsEmpty(s, middle, i, last);
      }
    }
  }

  /** Nothing is announced by a task that did not find the ledger empty after it woke. */
  lemma {:induction false} AnnouncedWithEmptyLedger(
      share: nat, actions: seq<Action>, i: nat, middle: seq<Action>, now: nat)
    requires var s := Run(NewSession(share), actions); i < |s.tasks| && s.tasks[i].phase.Sleeping?
    requires OnlyReads(middle, i)
    requires Reserves(Run(Step(Run(NewSession(share), actions), Wake(i)), middle), i, now)
    ensures exists n: nat :: ReadsEmpty(Step(Run(NewSession(share), actions), Wake(i)), middle, i, n)
  {
    RunKeepsInv(share, actions);
    var s := Run(NewSession(share), actions);
    TasksStep(s, Wake(i));
    WokenAwaits(s, i);
    FoundEmptyOnce(Step(s, Wake(i)), middle, i);
    ReservesWhenEmpty(Run(Step(s, Wake(i)), middle), i, now);
  }

  lemma {:induction false} ReservesWhenEmpty(s: Session, i: nat, now: nat)
    requires Reserves(s, i, now) && (s.tasks[i].phase.Woken? || s.tasks[i].phase.LedgerRead?)
    ensures FoundEmpty(s.tasks[i])
  {
  }

  /**
    The end of a session. Once no more requests come and every task is done, the completion is
    announced exactly when it was not announced before, some request completed, and none is unfinished.
   */
  lemma {:induction false} FinishAnnouncesIff(share: nat, actions: seq<Action>)
    requires var s := Run(NewSession(share), actions);
             s.closed && !s.over && forall t :: t in s.tasks ==> t.phase == Done
    ensures var s, s' := Run(NewSession(share), actions), Run(NewSession(share), actions + [Finish]);
            var due := TransferCompleted !in s.events && s.completed >= 1 && forall t :: t in s.tasks ==> t.finished;
            s'.over && s'.events == s.events + (if due then [TransferCompleted] else [])
  {
    var s := Run(NewSession(share), actions);
    RunKeepsInv(share, actions);
    CaughtUpIffAllFinished(share, actions);
    CountZero(s.tasks, IsEmitting);
    CountZero(s.events, IsCompletion);
    FinishStep(s);
    assert (actions + [Finish])[..|actions|] == actions;
  }

  lemma {:induction false} FinishStep(s: Session)
    requires s.closed && !s.over && forall t :: t in s.tasks ==> t.phase == Done
    ensures var s' := Step(s, Finish);
            s'.over && s'.events == s.events + (if CaughtUp(s.completed, s.active) && !s.emittedCompleted
                                               then [TransferCompleted] else [])
  {
  }

  /** A session of one request: its task, its ledger entry, and what has been announced. */
  predicate Alone(s: Session, share: nat, t: Task, entries: map<L.Key, L.Request>, events: seq<Emission>) {
    && s.tasks == [t] && s.active == 1 && s.completed == (if t.finished then 1 else 0)
    && s.ledger.share == share && s.ledger.active == entries && s.events == events
    && s.lastRequest == Some(0) && s.emittedStarted == (events != [])
    && s.emittedCompleted == (t.phase.Emitting? || TransferCompleted in events)
  }

  /** The one payload blob, of which `sent` bytes were reported. */
  function Blob(size: nat, sent: nat): L.Request {
    L.Request(Some(2), map[2 := sent], map[2 := size])
  }

  lemma {:induction false} BlobBytes(size: nat, sent: nat)
    ensures L.PayloadBytes(Blob(size, sent)) == sent
  {
    L.PayloadWithout(Blob(size, sent), 2);
    L.NothingReported(Blob(size, sent).(ends := map[]));
    assert map[2 := sent] - {2} == map[];
  }

  lemma {:induction false} AloneArrives(share: nat, k: L.Key)
    ensures Alone(Step(NewSession(share), Arrive(k, false, 0)), share, Task(k, false, false, Receiving), map[], [])
  {
  }

  lemma {:induction false} AloneStarts(s: Session, share: nat, k: L.Key)
    requires Alone(s, share, Task(k, false, false, Receiving), map[], [])
    ensures Alone(Step(s, OnStarted(0, 2, share)), share, Task(k, true, false, Receiving),
                  map[k := Blob(share, 0)], [TransferStarted])
  {
  }

  lemma {:induction false} AloneProgresses(s: Session, share: nat, k: L.Key)
    requires Alone(s, share, Task(k, true, false, Receiving), map[k := Blob(share, 0)], [TransferStarted])
    ensures Alone(Step(s, OnProgress(0, share)), share, Task(k, true, false, Reporting(share)),
                  map[k := Blob(share, 0)], [TransferStarted])
  {
  }

  lemma {:induction false} AloneReports(s: Session, share: nat, k: L.Key)
    requires Alone(s, share, Task(k, true, false, Reporting(share)), map[k := Blob(share, 0)], [TransferStarted])
    ensures Alone(Step(s, Report(0)), share, Task(k, true, false, Receiving),
                  map[k := Blob(share, share)], [TransferStarted])
  {
    var l := L.Step(s.ledger, L.BlobReport(k, share));
    assert l.active[k] == Blob(share, share);
    assert l.active == map[k := Blob(share, share)];
  }

  lemma {:induction false} AloneCompletes(s: Session, share: nat, k: L.Key)
    requires Alone(s, share, Task(k, true, false, Receiving), map[k := Blob(share, share)], [TransferStarted])
    ensures Alone(Step(s, OnCompleted(0)), share, Task(k, true, true, Sleeping(1, false)), map[], [TransferStarted])
  {
    BlobBytes(share, share);
    WholeIsDelivered(share);
    assert Delivered(s, s.tasks[0]);
    assert s.ledger.active - {k} == map[];
  }

  lemma {:induction false} AloneWakes(s: Session, share: nat, k: L.Key)
    requires Alone(s, share, Task(k, true, true, Sleeping(1, false)), map[], [TransferStarted])
    ensures Alone(Step(s, Wake(0)), share, Task(k, true, true, Woken(1, 1, 1, false)), map[], [TransferStarted])
  {
  }

  lemma {:induction false} AloneReads(s: Session, share: nat, k: L.Key)
    requires Alone(s, share, Task(k, true, true, Woken(1, 1, 1, false)), map[], [TransferStarted])
    ensures Alone(Step(s, ReadLedger(0)), share, Task(k, true, true, LedgerRead(true, false, false)), map[],
                  [TransferStarted])
  {
  }

  lemma {:induction false} AloneReserves(s: Session, share: nat, k: L.Key)
    requires Alone(s, share, Task(k, true, true, LedgerRead(true, false, false)), map[], [TransferStarted])
    ensures Reserves(s, 0, DEBOUNCE_MS)
    ensures Alone(Step(s, Decide(0, DEBOUNCE_MS)), share, Task(k, true, true, Emitting(false)), map[],
                  [TransferStarted])
  {
  }

  lemma {:induction false} AloneAnnounces(s: Session, share: nat, k: L.Key)
    requires Alone(s, share, Task(k, true, true, Emitting(false)), map[], [TransferStarted])
    ensures Step(s, Emit(0)).events == [TransferStarted, TransferCompleted]
  {
  }

  /** The reachable state in which a share of any size has been delivered to one peer, and its task sleeps. */
  lemma {:induction false} DeliveryReached(share: nat, k: L.Key) returns (s: Session)
    ensures Reached(s, share)
    ensures Alone(s, share, Task(k, true, true, Sleeping(1, false)), map[], [TransferStarted])
  {
    assert NewSession(share) == Run(NewSession(share), []);
    AloneArrives(share, k);
    s := ReachedNext(NewSession(share), share, Arrive(k, false, 0));
    AloneStarts(s, share, k);
    s := ReachedNext(s, share, OnStarted(0, 2, share));
    AloneProgresses(s, share, k);
    s := ReachedNext(s, share, OnProgress(0, share));
    AloneReports(s, share, k);
    s := ReachedNext(s, share, Report(0));
    AloneCompletes(s, share, k);
    s := ReachedNext(s, share, OnCompleted(0));
  }

  /** Such a debounce does happen, for every share. */
  lemma {:induction false} DebounceHappens(share: nat, k: L.Key)
    ensures exists s :: Reached(s, share) && |s.tasks| == 1 && s.tasks[0].phase.Sleeping?
                        && Reserves(Run(Step(s, Wake(0)), [ReadLedger(0)]), 0, DEBOUNCE_MS)
  {
    var s := DeliveryReached(share, k);
    AloneWakes(s, share, k);
    var woken := Step(s, Wake(0));
    AloneReads(woken, share, k);
    RunOfOne(woken, ReadLedger(0));
    AloneReserves(Step(woken, ReadLedger(0)), share, k);
  }

  /** A share of any size that is delivered to one peer is announced: started, and then completed. */
  lemma {:induction false} DeliveryIsAnnounced(share: nat, k: L.Key)
    ensures exists s :: Reached(s, share) && s.events == [TransferStarted, TransferCompleted]
  {
    var s := DeliveryReached(share, k);
    AloneWakes(s, share, k);
    s := ReachedNext(s, share, Wake(0));
    AloneReads(s, share, k);
    s := ReachedNext(s, share, ReadLedger(0));
    AloneReserves(s, share, k);
    s := ReachedNext(s, share, Decide(0, DEBOUNCE_MS));
    AloneAnnounces(s, share, k);
    s := ReachedNext(s, share, Emit(0));
  }

  lemma {:induction false} RunOfOne(s: Session, a: Action)
    ensures Run(s, [a]) == Step(s, a)
  {
    assert [a][..0] == [] && Run(s, []) == s;
  }

  // --------------------------------------------------------- what an ending does, exactly

  /** A running request is about to end. */
  ghost predicate EndsNow(s: Session, i: nat) {
    i < |s.tasks| && s.tasks[i].phase == Receiving && Running(s.tasks[i])
  }

  ghost predicate EnoughSent(s: Session, i: nat)
    requires i < |s.tasks|
  {
    Enough(L.RequestBytes(s.ledger, s.tasks[i].key), s.ledger.share)
  }

  /** The request left the ledger; its bytes and one request are credited, or nothing is. */
  ghost predicate LeftLedger(s: Session, s': Session, i: nat, credited: bool)
    requires i < |s.tasks|
  {
    var key := s.tasks[i].key;
    && s'.ledger.active == s.ledger.active - {key}
    && s'.ledger.finishedRequests == s.ledger.finishedRequests + One(credited && key in s.ledger.active)
    && s'.ledger.finishedBytes == s.ledger.finishedBytes + (if credited then L.RequestBytes(s.ledger, key) else 0)
  }

  lemma {:induction false} RetiredLeaves(s: Session, i: nat, e: Effect, credited: bool)
    requires i < |s.tasks| && e.call == Some(L.Retire(s.tasks[i].key, credited))
    ensures LeftLedger(s, Apply(s, i, e), i, credited)
  {
    assert s.tasks[i].key !in s.ledger.active ==> s.ledger.active - {s.tasks[i].key} == s.ledger.active;
  }

  /**
    The end of a running request, by a completed update or by the end of its stream. With enough
    of the share sent it counts as completed and is credited; below that it is taken out of the
    active ones and nothing is credited.
   */
  lemma {:induction false} EndingCounts(s: Session, i: nat, a: Action)
    requires EndsNow(s, i) && (a == OnCompleted(i) || a == OnStreamEnd(i))
    ensures var s', enough := Step(s, a), EnoughSent(s, i);
            && |s'.tasks| == |s.tasks| && s'.tasks[i].finished && LeftLedger(s, s', i, enough)
            && s'.completed == s.completed + One(enough)
            && s'.active == s.active - One(!enough)
            && s'.events == s.events
  {
    EndingIsSettle(s, i, a);
    SettleCounts(s, s.tasks[i], EnoughSent(s, i), a.OnStreamEnd?);
    RetiredLeaves(s, i, EffectAt(s, a), EnoughSent(s, i));
  }

  lemma {:induction false} EndingIsSettle(s: Session, i: nat, a: Action)
    requires EndsNow(s, i) && (a == OnCompleted(i) || a == OnStreamEnd(i))
    ensures EffectAt(s, a) == Settle(s, s.tasks[i], EnoughSent(s, i), a.OnStreamEnd?)
  {
    DeliveredIffEnough(L.RequestBytes(s.ledger, s.tasks[i].key), s.ledger.share);
  }

  lemma {:induction false} SettleCounts(s: Session, t: Task, delivered: bool, ending: bool)
    ensures var e := Settle(s, t, delivered, ending);
            && e.task.finished && e.call == Some(L.Retire(t.key, delivered)) && e.emits == []
            && e.completed == s.completed + One(delivered) && e.active == s.active - One(!delivered)
            && (e.task.phase.Sleeping? <==> delivered && s.completed + 1 >= s.active)
            && (e.task.phase.Sleeping? ==> e.task.phase.activeBefore == s.active)
  {
  }

  /** After it the task sleeps exactly when it counted and no other request is unfinished. */
  lemma {:induction false} EndingSleepsIffLast(share: nat, actions: seq<Action>, i: nat, a: Action)
    requires EndsNow(Run(NewSession(share), actions), i) && (a == OnCompleted(i) || a == OnStreamEnd(i))
    ensures var s, s' := Run(NewSession(share), actions), Run(NewSession(share), actions + [a]);
            && i < |s'.tasks|
            && (s'.tasks[i].phase.Sleeping? <==> EnoughSent(s, i) && forall t :: t in s'.tasks ==> t.finished)
            && (s'.tasks[i].phase.Sleeping? ==> s'.tasks[i].phase.activeBefore == s'.active)
  {
    var s := Run(NewSession(share), actions);
    assert (actions + [a])[..|actions|] == actions;
    EndingCounts(s, i, a);
    EndingSleeps(s, i, a);
    CaughtUpIffAllFinished(share, actions + [a]);
  }

  lemma {:induction false} EndingSleeps(s: Session, i: nat, a: Action)
    requires i < |s.tasks| && s.tasks[i].phase == Receiving && Running(s.tasks[i])
    requires a == OnCompleted(i) || a == OnStreamEnd(i)
    ensures i < |Step(s, a).tasks|
    ensures Step(s, a).tasks[i].phase.Sleeping? <==> EnoughSent(s, i) && s.completed + 1 >= s.active
    ensures Step(s, a).tasks[i].phase.Sleeping? ==> Step(s, a).tasks[i].phase.activeBefore == s.active
  {
    EndingIsSettle(s, i, a);
    SettleCounts(s, s.tasks[i], EnoughSent(s, i), a.OnStreamEnd?);
  }

  /** An abort counts as completed, and announces a failure exactly when no request is left unfinished. */
  lemma {:induction false} AbortCounts(share: nat, actions: seq<Action>, i: nat)
    requires EndsNow(Run(NewSession(share), actions), i)
    ensures var s, s' := Run(NewSession(share), actions), Run(NewSession(share), actions + [OnAborted(i)]);
            && LeftLedger(s, s', i, EnoughSent(s, i)) && s'.completed == s.completed + 1 && s'.active == s.active
            && s'.events == s.events
                            + (if forall t :: t in s'.tasks ==> t.finished then [TransferFailed] else [])
  {
    assert (actions + [OnAborted(i)])[..|actions|] == actions;
    AbortStep(Run(NewSession(share), actions), i);
    CaughtUpIffAllFinished(share, actions + [OnAborted(i)]);
  }

  lemma {:induction false} AbortStep(s: Session, i: nat)
    requires EndsNow(s, i)
    ensures var s' := Step(s, OnAborted(i));
            && LeftLedger(s, s', i, EnoughSent(s, i)) && s'.completed == s.completed + 1 && s'.active == s.active
            && s'.events == s.events + (if s.completed + 1 >= s.active then [TransferFailed] else [])
  {
    DeliveredIffEnough(L.RequestBytes(s.ledger, s.tasks[i].key), s.ledger.share);
    RetiredLeaves(s, i, EffectAt(s, OnAborted(i)), EnoughSent(s, i));
  }

  // ------------------------------------------------------- the inequality, exactly

  /** The tasks that were started once more after they had been retired. */
  ghost function Revived(s: Session, actions: seq<Action>): set<nat> {
    if actions == [] then {}
    else
      var prefix, a := actions[..|actions| - 1], actions[|actions| - 1];
      Revived(s, prefix) + RevivedBy(Run(s, prefix), a)
  }

  function RevivedBy(s: Session, a: Action): set<nat> {
    if LateStart(s, a) then {a.i} else {}
  }

  /** The ledger's entries are those of the running requests and of the revived ones, which are finished. */
  ghost predicate EntriesExact(tasks: seq<Task>, entries: set<L.Key>, revived: set<nat>) {
    && (forall j :: 0 <= j < |tasks| ==> (tasks[j].key in entries <==> Running(tasks[j]) || j in revived))
    && (forall j :: j in revived ==> j < |tasks| && tasks[j].finished)
    && (forall k :: k in entries ==> exists j :: 0 <= j < |tasks| && tasks[j].key == k)
  }

  predicate Adds(e: Effect) {
    e.call.Some? && (e.call.value.BlobStart? || e.call.value.Ensure?)
  }

  predicate Retires(e: Effect) {
    e.call.Some? && e.call.value.Retire?
  }

  /** Unless it is late, a step adds an entry when the request is running after it, and retires one when it stops. */
  predicate EntryFollows(t: Task, e: Effect, late: bool) {
    && e.task.key == t.key
    && (e.call.Some? ==> e.call.value.key == t.key)
    && (t.finished ==> e.task.finished)
    && if late then Adds(e)
       else
         && (Adds(e) ==> Running(e.task))
         && (Retires(e) ==> Running(t) && !Running(e.task))
         && (Running(e.task) && !Running(t) ==> Adds(e))
         && (Running(t) && !Running(e.task) ==> Retires(e))
  }

  lemma {:induction false} UpdateEntry(s: Session, t: Task, a: Action, delivered: bool)
    requires t.phase == Receiving && (t.finished ==> t.started)
    ensures EntryFollows(t, UpdateEffect(s, t, a, delivered), a.OnStarted? && t.finished)
  {
  }

  lemma {:induction false} ResumeEntry(s: Session, t: Task, a: Action)
    ensures EntryFollows(t, ResumeEffect(s, t, a), false)
  {
  }

  lemma {:induction false} EffectEntry(s: Session, a: Action)
    requires TasksGood(s) && IsTaskAction(a) && a.i < |s.tasks|
    ensures EntryFollows(s.tasks[a.i], EffectAt(s, a), LateStart(s, a))
  {
    var t := s.tasks[a.i];
    if t.phase == Receiving {
      UpdateEntry(s, t, a, Delivered(s, t));
    } else {
      ResumeEntry(s, t, a);
    }
  }

  /** What a call on the ledger does to the set of its entries. */
  function EntriesAfter(entries: set<L.Key>, e: Effect): set<L.Key> {
    if Adds(e) then entries + {e.task.key} else if Retires(e) then entries - {e.task.key} else entries
  }

  lemma {:induction false} ApplyCall(s: Session, i: nat, e: Effect)
    requires i < |s.tasks| && (e.call.Some? ==> e.call.value.key == e.task.key)
    ensures Apply(s, i, e).ledger.active.Keys == EntriesAfter(s.ledger.active.Keys, e)
  {
  }

  lemma {:induction false} EntryChanges(
      tasks: seq<Task>, entries: set<L.Key>, revived: set<nat>, i: nat, e: Effect, late: bool)
    requires i < |tasks| && DistinctKeys(tasks) && EntriesExact(tasks, entries, revived)
    requires EntryFollows(tasks[i], e, late) && (late ==> tasks[i].finished)
    ensures EntriesExact(tasks[i := e.task], EntriesAfter(entries, e), revived + (if late then {i} else {}))
  {
    var after, more := EntriesAfter(entries, e), tasks[i := e.task];
    forall k | k in after ensures exists j :: 0 <= j < |more| && more[j].key == k {
      if k == e.task.key {
        assert more[i].key == k;
      } else {
        var j :| 0 <= j < |tasks| && tasks[j].key == k;
        assert more[j].key == k;
      }
    }
    forall j | 0 <= j < |tasks| && j != i ensures tasks[j].key in after <==> tasks[j].key in entries {
      assert tasks[j].key != tasks[i].key;
    }
  }

  lemma {:induction false} EntryArrives(tasks: seq<Task>, entries: set<L.Key>, revived: set<nat>, t: Task)
    requires EntriesExact(tasks, entries, revived) && DistinctKeys(tasks + [t]) && !t.started
    ensures EntriesExact(tasks + [t], entries, revived)
  {
    var more, last := tasks + [t], |tasks|;
    forall j | 0 <= j < last ensures more[j] == tasks[j] && tasks[j].key != more[last].key {
    }
    forall k | k in entries ensures exists j :: 0 <= j < |more| && more[j].key == k {
      var j :| 0 <= j < |tasks| && tasks[j].key == k;
      assert more[j].key == k;
    }
  }

  /** Tasks keep their keys, and new ones come after them. */
  lemma {:induction false} KeysStay(s: Session, a: Action)
    requires TasksGood(s)
    ensures |s.tasks| <= |Step(s, a).tasks|
    ensures forall j :: 0 <= j < |s.tasks| ==> Step(s, a).tasks[j].key == s.tasks[j].key
  {
    if IsTaskAction(a) && a.i < |s.tasks| {
      EffectEntry(s, a);
      assert Step(s, a).tasks == s.tasks[a.i := EffectAt(s, a).task];
    }
  }

  ghost predicate Exact(s: Session, revived: set<nat>) {
    EntriesExact(s.tasks, s.ledger.active.Keys, revived)
  }

  lemma {:induction false} EntriesStep(s: Session, a: Action, revived: set<nat>)
    requires Exact(s, revived) && TasksGood(s) && DistinctKeys(s.tasks) && DistinctKeys(Step(s, a).tasks)
    ensures Exact(Step(s, a), revived + RevivedBy(s, a))
  {
    if IsTaskAction(a) && a.i < |s.tasks| {
      EffectEntry(s, a);
      ApplyCall(s, a.i, EffectAt(s, a));
      EntryChanges(s.tasks, s.ledger.active.Keys, revived, a.i, EffectAt(s, a), LateStart(s, a));
    } else {
      assert revived + {} == revived;
      if a.Arrive? && Step(s, a) != s {
        EntryArrives(s.tasks, s.ledger.active.Keys, revived, Task(a.key, false, false, Receiving));
      }
    }
  }

  lemma {:induction false} RunEntries(share: nat, actions: seq<Action>)
    requires DistinctKeys(Run(NewSession(share), actions).tasks)
    ensures Exact(Run(NewSession(share), actions), Revived(NewSession(share), actions))
  {
    if actions != [] {
      var prefix, a := actions[..|actions| - 1], actions[|actions| - 1];
      RunKeepsInv(share, prefix);
      KeysStay(Run(NewSession(share), prefix), a);
      RunEntries(share, prefix);
      EntriesStep(Run(NewSession(share), prefix), a, Revived(NewSession(share), prefix));
    }
  }

  /** The keys of the tasks at the given indices. */
  function KeysAt(tasks: seq<Task>, indices: set<nat>): set<L.Key>
    requires forall j :: j in indices ==> j < |tasks|
  {
    set j | j in indices :: tasks[j].key
  }

  lemma {:induction false} KeysAtCount(tasks: seq<Task>, indices: set<nat>)
    requires DistinctKeys(tasks) && forall j :: j in indices ==> j < |tasks|
    ensures |KeysAt(tasks, indices)| == |indices|
    decreases |indices|
  {
    if indices != {} {
      var i :| i in indices;
      var rest := indices - {i};
      KeysAtCount(tasks, rest);
      assert KeysAt(tasks, indices) == KeysAt(tasks, rest) + {tasks[i].key};
      assert tasks[i].key !in KeysAt(tasks, rest);
    }
  }

  lemma {:induction false} EntriesCount(s: Session, revived: set<nat>)
    requires Exact(s, revived) && DistinctKeys(s.tasks)
    ensures |s.ledger.active| == Count(s.tasks, Running) + |revived|
  {
    var running, again := KeysOf(s.tasks, Running), KeysAt(s.tasks, revived);
    forall k ensures k in s.ledger.active <==> k in running || k in again {
      KeysOfHas(s.tasks, Running, k);
    }
    forall k | k in again ensures k !in running {
      KeysOfHas(s.tasks, Running, k);
    }
    assert s.ledger.active.Keys == running + again && running !! again;
    assert |s.ledger.active| == |s.ledger.active.Keys|;
    KeysOfCount(s.tasks, Running);
    KeysAtCount(s.tasks, revived);
  }

  /**
    What late starts do to the two accounts, exactly. With one task per request key, counted
    requests and ledger entries together exceed the requests that arrived by the number of revived
    requests, less those that have not started; so the accounts agree if and only if no more
    requests were revived than are still to start.
   */
  lemma {:induction false} AccountsAgreeIff(share: nat, actions: seq<Action>)
    requires DistinctKeys(Run(NewSession(share), actions).tasks)
    ensures var s, revived := Run(NewSession(share), actions), Revived(NewSession(share), actions);
            var unstarted := Count(s.tasks, IsUnstarted);
            && s.completed + |s.ledger.active| + unstarted == s.active + |revived|
            && (s.completed + |s.ledger.active| <= s.active <==> |revived| <= unstarted)
  {
    RunKeepsInv(share, actions);
    RunEntries(share, actions);
    var s := Run(NewSession(share), actions);
    EntriesCount(s, Revived(NewSession(share), actions));
    OpenAreRunningOrUnstarted(s.tasks);
  }

  // ---------------------------------------------------- what an announcement rests on

  /** The task goes by a reading in which completions had caught up with arrivals. */
  predicate Claims(t: Task) {
    || t.phase.Emitting?
    || (t.phase.LedgerRead? && t.phase.caughtUp)
    || (t.phase.Woken? && CaughtUp(t.phase.completedAfter, t.phase.activeAfter))
  }

  predicate Claimed(s: Session) {
    s.emittedCompleted || exists j :: 0 <= j < |s.tasks| && Claims(s.tasks[j])
  }

  lemma {:induction false} ClaimsComeFromReadings(s: Session, t: Task, a: Action, delivered: bool)
    ensures var e := TaskEffect(s, t, a, delivered);
            && (Claims(e.task) ==> Claims(t) || CaughtUp(s.completed, s.active))
            && (e.emittedCompleted ==> s.emittedCompleted || Claims(t))
  {
  }

  lemma {:induction false} ClaimedStep(s: Session, a: Action)
    requires Claimed(Step(s, a))
    ensures Claimed(s) || CaughtUp(s.completed, s.active)
  {
    if IsTaskAction(a) && a.i < |s.tasks| {
      ClaimsComeFromReadings(s, s.tasks[a.i], a, Delivered(s, s.tasks[a.i]));
      ClaimedApply(s, a.i, EffectAt(s, a));
    } else if !Step(s, a).emittedCompleted {
      var j :| 0 <= j < |Step(s, a).tasks| && Claims(Step(s, a).tasks[j]);
      assert j < |s.tasks| && Step(s, a).tasks[j] == s.tasks[j];
    }
  }

  lemma {:induction false} ClaimedApply(s: Session, i: nat, e: Effect)
    requires i < |s.tasks| && Claimed(Apply(s, i, e))
    ensures e.emittedCompleted || Claims(e.task) || Claimed(s)
  {
    var tasks := Apply(s, i, e).tasks;
    if !e.emittedCompleted {
      var j :| 0 <= j < |tasks| && Claims(tasks[j]);
      assert j == i || tasks[j] == s.tasks[j];
    }
  }

  /** At moment `n` of the run at least one request had completed, and every request that had arrived was finished. */
  ghost predicate AllFinishedAt(share: nat, actions: seq<Action>, n: nat)
    requires n <= |actions|
  {
    var s := Run(NewSession(share), actions[..n]);
    s.completed >= 1 && forall t :: t in s.tasks ==> t.finished
  }

  lemma {:induction false} ClaimedLast(share: nat, actions: seq<Action>)
    requires actions != [] && Claimed(Run(NewSession(share), actions))
    ensures Claimed(Run(NewSession(share), actions[..|actions| - 1])) || AllFinishedAt(share, actions, |actions| - 1)
  {
    var prefix := actions[..|actions| - 1];
    ClaimedStep(Run(NewSession(share), prefix), actions[|actions| - 1]);
    CaughtUpIffAllFinished(share, prefix);
  }

  lemma {:induction false} FinishedInPrefix(share: nat, actions: seq<Action>, k: nat, n: nat)
    requires n <= k <= |actions| && AllFinishedAt(share, actions[..k], n)
    ensures AllFinishedAt(share, actions, n)
  {
    assert actions[..k][..n] == actions[..n];
  }

  lemma {:induction false} ClaimedSince(share: nat, actions: seq<Action>) returns (n: nat)
    requires Claimed(Run(NewSession(share), actions))
    ensures n <= |actions| && AllFinishedAt(share, actions, n)
  {
    if actions == [] {
      assert false;
    } else {
      n := |actions| - 1;
      ClaimedLast(share, actions);
      if !AllFinishedAt(share, actions, n) {
        var k := n;
        n := ClaimedSince(share, actions[..k]);
        FinishedInPrefix(share, actions, k, n);
      }
    }
  }

  /** `transfer-completed` is announced only after a moment at which every request seen so far was finished. */
  lemma {:induction false} CompletionIsJustified(share: nat, actions: seq<Action>)
    requires TransferCompleted in Run(NewSession(share), actions).events
    ensures exists n :: 0 <= n <= |actions| && AllFinishedAt(share, actions, n)
  {
    RunKeepsInv(share, actions);
    CountZero(Run(NewSession(share), actions).events, IsCompletion);
    var n := ClaimedSince(share, actions);
  }

  // --------------------------------------------------------------- late starts, exactly

  predicate DistinctKeys(tasks: seq<Task>) {
    forall i, j :: 0 <= i < j < |tasks| ==> tasks[i].key != tasks[j].key
  }

  lemma {:induction false} LateStartUntracks(s: Session, a: Action)
    requires LateStart(s, a) && TasksGood(s) && DistinctKeys(s.tasks)
    ensures !TracksRunning(Step(s, a))
  {
    var s', key := Step(s, a), s.tasks[a.i].key;
    assert key in s'.ledger.active;
    assert !s'.tasks[a.i].started || s'.tasks[a.i].finished;
    forall j: nat ensures !Serves(s'.tasks, j, key) {
    }
  }

  /**
    The assumption is exact. With one task per request key, the ledger holds running requests
    only, in every state of a run, if and only if no retired request is started again.
   */
  lemma {:induction false} TracksIffNoLateStart(share: nat, actions: seq<Action>)
    requires forall n :: 0 <= n <= |actions| ==> DistinctKeys(Run(NewSession(share), actions[..n]).tasks)
    ensures NoLateStarts(NewSession(share), actions)
            <==> forall n :: 0 <= n <= |actions| ==> TracksRunning(Run(NewSession(share), actions[..n]))
  {
    var s0 := NewSession(share);
    if NoLateStarts(s0, actions) {
      forall n | 0 <= n <= |actions| ensures TracksRunning(Run(s0, actions[..n])) {
        assert forall m :: 0 <= m < n ==> actions[..n][..m] == actions[..m];
        RunTracks(share, actions[..n]);
      }
    } else {
      var n :| 0 <= n < |actions| && LateStart(Run(s0, actions[..n]), actions[n]);
      RunKeepsInv(share, actions[..n]);
      LateStartUntracks(Run(s0, actions[..n]), actions[n]);
      assert actions[..n + 1][..n] == actions[..n];
      assert !TracksRunning(Run(s0, actions[..n + 1]));
    }
  }

  /** A session with one request, `k`, which has reported nothing but the start of a blob, if that. */
  predicate Scene(s: Session, k: L.Key, started: bool, finished: bool, entries: set<L.Key>) {
    && s.tasks == [Task(k, started, finished, Receiving)]
    && s.active == 1 && s.completed == (if finished then 1 else 0)
    && s.ledger.active.Keys == entries
  }

  lemma {:induction false} SceneArrives(k: L.Key)
    ensures Scene(Step(NewSession(9), Arrive(k, false, 0)), k, false, false, {})
  {
  }

  lemma {:induction false} SceneStarts(s: Session, k: L.Key)
    requires Scene(s, k, false, false, {})
    ensures Scene(Step(s, OnStarted(0, 2, 9)), k, true, false, {k})
  {
  }

  lemma {:induction false} SceneAborts(s: Session, k: L.Key)
    requires Scene(s, k, true, false, {k})
    ensures Scene(Step(s, OnAborted(0)), k, true, true, {})
  {
  }

  lemma {:induction false} SceneStartsAgain(s: Session, k: L.Key)
    requires Scene(s, k, true, true, {})
    ensures Scene(Step(s, OnStarted(0, 3, 9)), k, true, true, {k})
  {
  }

  /** Such a run exists: an aborted request starts one more blob, and the two accounts disagree. */
  lemma {:induction false} LateStartBreaksTheAccounts(k: L.Key)
    ensures exists s :: Reached(s, 9) && s.completed + |s.ledger.active| > s.active
  {
    assert NewSession(9) == Run(NewSession(9), []);
    SceneArrives(k);
    var s := ReachedNext(NewSession(9), 9, Arrive(k, false, 0));
    SceneStarts(s, k);
    s := ReachedNext(s, 9, OnStarted(0, 2, 9));
    SceneAborts(s, k);
    s := ReachedNext(s, 9, OnAborted(0));
    SceneStartsAgain(s, k);
    s := ReachedNext(s, 9, OnStarted(0, 3, 9));
    SizeOfOne(s.ledger.active, k);
  }

  lemma {:induction false} SizeOfOne(m: map<L.Key, L.Request>, k: L.Key)
    requires m.Keys == {k}
    ensures |m| == 1
  {
    assert |m.Keys| == 1;
  }

  // ------------------------------------------------------------------- the object

  /** The shared atomics, the locked ledger and the per-task flags, updated in place. */
  class ProgressLoop {
    const ledger: L.ShareProgress
    var active: int
    var completed: nat
    var emittedStarted: bool
    var emittedCompleted: bool
    var lastRequest: Option<nat>
    var tasks: seq<Task>
    var events: seq<Emission>
    var closed: bool
    var over: bool

    ghost function View(): Session
      reads this, ledger
    {
      Session(ledger.View(), active, completed, emittedStarted, emittedCompleted, lastRequest, tasks, events,
              closed, over)
    }

    constructor (share: nat)
      ensures View() == NewSession(share)
      ensures fresh(ledger)
    {
      ledger := new L.ShareProgress(share);
      active, completed := 0, 0;
      emittedStarted, emittedCompleted := false, false;
      lastRequest, tasks, events := None, [], [];
      closed, over := false, false;
    }

    method ReceiveRequest(key: L.Key, sizesProbe: bool, now: nat)
      requires !closed
      modifies this
      ensures View() == Step(old(View()), Arrive(key, sizesProbe, now))
    {
      if !sizesProbe {
        active := active + 1;
        lastRequest := Some(now);
        tasks := tasks + [Task(key, false, false, Receiving)];
      }
    }

    method AnnounceStart()
      modifies this
      ensures View() == old(View()).(
                emittedStarted := true,
                events := if old(emittedStarted) then old(events) else old(events) + [TransferStarted])
    {
      if !emittedStarted {
        events := events + [TransferStarted];
      }
      emittedStarted := true;
    }

    method HandleStarted(i: nat, index: nat, size: nat)
      requires i < |tasks| && tasks[i].phase == Receiving
      modifies this, ledger
      ensures View() == Step(old(View()), OnStarted(i, index, size))
    {
      var t := tasks[i];
      ledger.BlobStartedFor(t.key, index, size);
      if !t.started {
        AnnounceStart();
      }
      tasks := tasks[i := t.(started := true)];
    }

    method HandleProgress(i: nat, offset: nat)
      requires i < |tasks| && tasks[i].phase == Receiving
      modifies this, ledger
      ensures View() == Step(old(View()), OnProgress(i, offset))
    {
      var t := tasks[i];
      if !t.started {
        ledger.EnsureRequest(t.key);
        AnnounceStart();
      }
      tasks := tasks[i := t.(started := true, phase := Reporting(offset))];
    }

    method RecordProgress(i: nat)
      requires i < |tasks| && tasks[i].phase.Reporting?
      modifies this, ledger
      ensures View() == Step(old(View()), Report(i))
    {
      var t := tasks[i];
      ledger.BlobProgressFor(t.key, t.phase.offset);
      tasks := tasks[i := t.(phase := Receiving)];
    }

    /** The critical section shared by the three ways a request ends. */
    method RetireTask(i: nat) returns (delivered: bool)
      requires i < |tasks|
      modifies ledger
      ensures delivered == old(Delivered(View(), tasks[i]))
      ensures View() == old(View()).(ledger := L.Step(old(View()).ledger, L.Retire(tasks[i].key, delivered)))
    {
      var bytes := ledger.RequestBytesOf(tasks[i].key);
      delivered := PayloadComplete(bytes, ledger.share);
      var _ := ledger.RetireRequest(tasks[i].key, delivered);
    }

    method SettleTask(i: nat, ending: bool)
      requires i < |tasks| && tasks[i].phase == Receiving && Running(tasks[i])
      modifies this, ledger
      ensures var delivered := old(Delivered(View(), tasks[i]));
              View() == Apply(old(View()), i, Settle(old(View()), old(tasks)[i], delivered, ending))
    {
      var t := tasks[i].(finished := true, phase := Resume(ending));
      var delivered := RetireTask(i);
      if !delivered {
        active := active - 1;
      } else {
        completed := completed + 1;
        if completed >= active {
          t := t.(phase := Sleeping(active, ending));
        }
      }
      tasks := tasks[i := t];
    }

    method HandleCompleted(i: nat)
      requires i < |tasks| && tasks[i].phase == Receiving
      modifies this, ledger
      ensures View() == Step(old(View()), OnCompleted(i))
    {
      if tasks[i].started && !tasks[i].finished {
        SettleTask(i, false);
      }
    }

    method HandleStreamEnd(i: nat)
      requires i < |tasks| && tasks[i].phase == Receiving
      modifies this, ledger
      ensures View() == Step(old(View()), OnStreamEnd(i))
    {
      if tasks[i].started && !tasks[i].finished {
        SettleTask(i, true);
      } else {
        tasks := tasks[i := tasks[i].(phase := Done)];
      }
    }

    method HandleAborted(i: nat)
      requires i < |tasks| && tasks[i].phase == Receiving
      modifies this, ledger
      ensures View() == Step(old(View()), OnAborted(i))
    {
      if tasks[i].started && !tasks[i].finished {
        AbortTask(i);
      }
    }

    method AbortTask(i: nat)
      requires i < |tasks| && tasks[i].phase == Receiving && Running(tasks[i])
      modifies this, ledger
      ensures View() == Apply(old(View()), i, Abort(old(View()), old(tasks)[i], old(Delivered(View(), tasks[i]))))
    {
      var _ := RetireTask(i);
      completed := completed + 1;
      if completed >= active {
        events := events + [TransferFailed];
      }
      tasks := tasks[i := tasks[i].(finished := true)];
    }

    method WakeUp(i: nat)
      requires i < |tasks| && tasks[i].phase.Sleeping?
      modifies this
      ensures View() == Step(old(View()), Wake(i))
    {
      var t := tasks[i];
      tasks := tasks[i := t.(phase := Woken(t.phase.activeBefore, completed, active, t.phase.ending))];
    }

    method ReadLedgerState(i: nat)
      requires i < |tasks| && tasks[i].phase.Woken?
      modifies this
      ensures View() == Step(old(View()), ReadLedger(i))
    {
      var t := tasks[i];
      var caughtUp := CaughtUp(t.phase.completedAfter, t.phase.activeAfter)
                      && !(t.phase.activeAfter > t.phase.activeBefore);
      tasks := tasks[i := t.(phase := LedgerRead(caughtUp, |ledger.active| > 0, t.phase.ending))];
    }

    method DecideCompletion(i: nat, now: nat)
      requires i < |tasks| && tasks[i].phase.LedgerRead?
      modifies this
      ensures View() == Step(old(View()), Decide(i, now))
    {
      var t := tasks[i];
      if t.phase.caughtUp && !t.phase.busy && !Recent(lastRequest, now) && !emittedCompleted {
        emittedCompleted := true;
        tasks := tasks[i := t.(phase := Emitting(t.phase.ending))];
      } else {
        tasks := tasks[i := t.(phase := Resume(t.phase.ending))];
      }
    }

    method EmitCompleted(i: nat)
      requires i < |tasks| && tasks[i].phase.Emitting?
      modifies this
      ensures View() == Step(old(View()), Emit(i))
    {
      events := events + [TransferCompleted];
      tasks := tasks[i := tasks[i].(phase := Resume(tasks[i].phase.ending))];
    }

    /** The channel of new requests ends. */
    method CloseRequests()
      modifies this
      ensures View() == Step(old(View()), Close)
    {
      closed := true;
    }

    method FinishSession()
      requires closed && !over && forall t :: t in tasks ==> t.phase == Done
      modifies this
      ensures View() == Step(old(View()), Finish)
    {
      if completed >= active && completed >= 1 && !emittedCompleted {
        emittedCompleted := true;
        events := events + [TransferCompleted];
      }
      over := true;
    }
  }
}

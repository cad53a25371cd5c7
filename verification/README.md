# DashBeam engine: a verified model

DashBeam sends files between devices peer to peer. This project models the stateful bookkeeping
of its Rust engine and the pairing protocol its nodes speak, and proves properties of every run
of that model. `dafny verify dfyconfig.toml` checks all of it.

| file | models |
|---|---|
| `Ledger.dfy` | the per-request progress ledger of a share and the snapshot computed from it |
| `ShareSession.dfy` | the request tasks of a share session, their two counters, the completion debounce and the announcements |
| `RateLimit.dfy` | the token bucket for unpaired control traffic, its capped table and its pruning |
| `PairedStore.dfy` | the paired-device records and the in-memory allowlist kept beside them |
| `Pairing.dfy` | any number of nodes exchanging invites, answers, Recognitions, refusals and Forgets |
| `SessionMap.dfy` | the shared map of live control sessions, one lock acquisition at a time |
| `History.dfy` | the transfer history store and the recorder that opens and ends one row per transfer |
| `Export.dfy` | export of a received collection without overwriting |
| `RollingLog.dfy` | size-capped rolling log files and their pruning |
| `OpenTarget.dfy` | the path a history row opens |
| `Meters.dfy` | the sliding speed window and the emission throttle |
| `Nearby.dfy` | the registry of unpaired devices on the local network |
| `Versions.dfy` | reading a version text, and the release ordering |
| `Common.dfy`, `Text.dfy` | shared vocabulary: options, saturating arithmetic, sums, counts, splitting, decimal numbers |

Every component has the same shape. A state and a step function describe what the code does
between two points where something else can run; `Run` folds the steps over any sequence of
actions; classes update the same state in place, loop by loop, and their methods are proved equal
to the step function; the lemmas then speak about all runs.

## Main results

- **Ledger.** The snapshot of any sequence of calls equals one computed from the log of calls
  alone, where each blob counts with the largest size-capped offset reported while it was current
  (`SnapshotRefinesLog`, `HighWaterIsTheMaximum`). Crediting a finished request changes no
  snapshot; abandoning one gives the ledger of the run without it, whatever was interleaved
  (`CreditConserves`, `AbandonErases`, `AbandonedNeverHappened`). One report raises the snapshot by
  the new bytes of a payload blob, and by nothing for a metadata blob (`ReportRaisesSnapshot`).
- **Share session.** `active` is exactly `completed` plus the unfinished requests in every
  reachable state, with no assumption on the updates (`RunKeepsInv`); so `active` never
  underflows, and the completion check succeeds exactly when every request has finished.
  `transfer-completed` is announced at most once, after `transfer-started`, and only after a
  moment at which every request seen so far had finished. When a task reserves the announcement
  after its debounce, every request is finished at that very step, unless one arrived since it
  woke and half a second has passed since (`DebounceHolds`). The ledger tracks running requests
  only, throughout a run, if and only if no retired request is started again. Completed plus
  ledger entries exceed `active` by exactly the requests revived by such a late start, less those
  that have not started yet (`AccountsAgreeIff`); a run where they do exceed it is given. A request
  counts and is credited exactly from 95 of 100 bytes on (`EndingCounts`), and a delivered share of
  any size is announced in some run (`DeliveryIsAnnounced`).
- **Pairing.** A node commits a nearby peer only against its own pending invite and after that
  peer stored its record and answered yes, and every commit uses up a yes of its own. While
  neither of two nodes forgets the other, their records of each other stay active if and only if
  no refusal issued before its issuer's commit is read after the grace period; a run where one is,
  and a pairing both sides hold is turned off, is given. So is a run in which a pairing succeeds;
  what each message and command changes is stated for every state (`AnswerIsTaken` and following).
- **Allowlist.** It equals the connectable records after every sequence of operations, so a
  restart changes nobody's access. The pairing host stores the id of the PairingInfo and
  allowlists the id of the connection; `HostPairKeepsInvIff` says exactly when that is harmless.
- **Rate limiter.** A potential-function proof of the window bound, for all histories, peers and
  prunes, including the wrap-around of the `u32` cast, and its lower half: waiting earns every
  interval its message, whatever others do (`WaitingIsServed`, `PacedIsServed`). However many calls of others follow a prune,
  it is invisible to the pruned peer's next admitted call if and only if the old bucket would
  still be idle at that call; the cast makes it visible after 2^32 intervals, and a run of calls
  that gets there is given.
- **Session map.** No entry outlives its owner's teardown or falls to another's. An inbound
  registration looks and inserts under two locks; `RegistrationReplacesIff` says exactly when it
  replaces a session already held, and a run where it does is given.
- **History, export, logs, speed window, throttle, nearby probes, versions.** Whole-run
  or all-input laws as listed below.

Where code and documentation differ, the model follows the code: `completed_requests` counts
aborted requests too; `MAX_SESSION_FILES` is 3, and startup prunes before it creates a file, so
four files exist between operations; an empty recorded file name makes the open target leave the
destination (`OpenTarget.ResolveOpenTarget` says exactly when); a version text without a readable number is not
always "not newer" (`Versions.UnreadableIsNewerIff` says exactly when it is newer).

## Model

| member | source | states |
|---|---|---|
| Ledger.HighWaterIsTheMaximum | engine/protocol/src/progress.rs:108-124 | the mark of a blob is an upper bound of, and one of, the size-capped offsets reported while it was current |
| Ledger.RequestRefinesLog | engine/protocol/src/progress.rs:97-132 | a request's per-blob ends, current blob and payload are functions of its own event log |
| Ledger.ComputePayloadBytes | engine/protocol/src/progress.rs:126-132 | the loop returns the sum over blobs of index 2 and up, in any iteration order |
| Ledger.PayloadWithout | engine/protocol/src/progress.rs:126-132 | blob by blob: a blob of index 2 or more counts its mark once, and blobs 0 and 1 count nothing |
| Ledger.ReportRaisesSnapshot | engine/protocol/src/progress.rs:114-124 | one report raises the snapshot by the bytes beyond the blob's mark, capped by its size and the share, of payload blobs only |
| Ledger.FirstReportCounts | engine/protocol/src/progress.rs:160-173 | after any log, the first report of a new request counts for a payload blob, up to its size and the share, and changes nothing for a metadata blob |
| Ledger.LedgerRefinesLog | engine/protocol/src/progress.rs:143-198 | the live entries are exactly the opened and unretired requests, each in the state its own events give |
| Ledger.SnapshotRefinesLog | engine/protocol/src/progress.rs:204-215 | snapshot bytes and total are computed from the log of calls alone |
| Ledger.SnapshotWithinTotal | engine/protocol/src/progress.rs:204-215 | bytes never exceed the total, also where the total saturates |
| Ledger.CreditConserves | engine/protocol/src/progress.rs:176-186 | retiring with credit leaves the snapshot unchanged |
| Ledger.AbandonErases | engine/protocol/src/progress.rs:160-215 | retiring without credit equals the run in which the request's events since its last retirement are deleted, for every interleaving and every continuation |
| Ledger.AbandonedNeverHappened | engine/protocol/src/progress.rs:160-215 | for a request that ends once, that is the run without any of its events |
| Ledger.ShareProgress.RetireRequest | engine/protocol/src/progress.rs:176-186 | removes the entry, credits it or not, and returns its capped bytes |
| Ledger.ShareProgress.TakeSnapshot | engine/protocol/src/progress.rs:204-215 | the summing loops return the snapshot of the ledger |
| ShareSession.RunKeepsInv | engine/protocol/src/send.rs:404-656 | in every reachable state active == completed + unfinished requests, credited requests are counted, and announcements are in order |
| ShareSession.CompletionAnnouncedOnce | engine/protocol/src/send.rs:439-656 | transfer-completed occurs at most once and never first; transfer-started is exactly the first event |
| ShareSession.CompletionIsJustified | engine/protocol/src/send.rs:526-531 | an announced completion is preceded by a moment at which at least one request had completed and all that had arrived were finished |
| ShareSession.DeliveredIffEnough | engine/protocol/src/send.rs:288-294 | delivered iff 100 * sent >= 95 * total, or 100 * sent does not fit in 64 bits; the second case adds nothing while 100 * total fits |
| ShareSession.WholeIsDelivered | engine/protocol/src/send.rs:288-294 | sending everything is delivering, for every total |
| ShareSession.EndingCounts | engine/protocol/src/send.rs:484-526 | a running request that ends with enough of the share sent counts as completed and is credited with its bytes; below that active drops and nothing is credited |
| ShareSession.EndingSleepsIffLast | engine/protocol/src/send.rs:515-526 | after it the task waits for the debounce iff enough was sent and no request is unfinished |
| ShareSession.AbortCounts | engine/protocol/src/send.rs:562-588 | an abort counts as completed, credits what was delivered, and announces a failure iff no request is unfinished |
| ShareSession.FinishAnnouncesIff | engine/protocol/src/send.rs:669-679 | at the end of the session the completion is announced iff it was not before, some request completed and none is unfinished |
| ShareSession.DebounceHolds | engine/protocol/src/send.rs:524-558 | after any run and whatever others do while the woken task reads the ledger, when it reserves the announcement no more requests are active than when it fell asleep, and every request that has arrived is finished at that step, unless one arrived since the task woke and half a second has passed since |
| ShareSession.AnnouncedWithEmptyLedger | engine/protocol/src/send.rs:533-550 | in all such runs the task found the ledger empty after it woke |
| ShareSession.DeliveryIsAnnounced | engine/protocol/src/send.rs:404-558 | for a share of any size there is a run of one delivered request with exactly the announcements started and completed |
| ShareSession.DebounceHappens | engine/protocol/src/send.rs:524-558 | for a share of any size, a reachable sleeping task that wakes, reads the ledger and reserves the announcement |
| ShareSession.CaughtUpIffAllFinished | engine/protocol/src/send.rs:515-516 | completed >= active iff every request has finished; without late starts the ledger is then empty |
| ShareSession.AccountsAgree | engine/protocol/src/send.rs:404-656 | completed plus ledger entries never exceed active, and the announced total never exceeds one share per active request |
| ShareSession.TracksIffNoLateStart | engine/protocol/src/send.rs:439-457 | the ledger holds running requests only, in every state of a run, iff no retired request is started again |
| ShareSession.AccountsAgreeIff | engine/protocol/src/send.rs:439-457 | in every reachable state with one task per key, completed plus ledger entries exceed active by exactly the requests revived by a late start less those not started yet; so they stay within active iff no more were revived than are still to start |
| ShareSession.LateStartBreaksTheAccounts | engine/protocol/src/send.rs:439-457 | a reachable state in which the two accounts disagree |
| ShareSession.UnstartedEndBlocksCompletion | engine/protocol/src/send.rs:592-600 | after a request's stream ends before any update, completed stays below active for the rest of the run |
| ShareSession.ProgressLoop.ReceiveRequest | engine/protocol/src/send.rs:404-417 | a new request raises active and the debounce time, a sizes probe does neither |
| ShareSession.ProgressLoop.HandleStarted | engine/protocol/src/send.rs:439-457 | the Started arm is the step function's |
| ShareSession.ProgressLoop.HandleProgress | engine/protocol/src/send.rs:458-472 | the Progress arm up to its await is the step function's |
| ShareSession.ProgressLoop.SettleTask | engine/protocol/src/send.rs:484-526 | retire, settle the counters, and sleep iff completions caught up |
| ShareSession.ProgressLoop.HandleCompleted | engine/protocol/src/send.rs:484-526 | the Completed arm is the step function's |
| ShareSession.ProgressLoop.HandleAborted | engine/protocol/src/send.rs:562-588 | an abort counts as completed and announces a failure iff completions caught up |
| ShareSession.ProgressLoop.HandleStreamEnd | engine/protocol/src/send.rs:592-621 | the end of the stream settles a running request and ends the task |
| ShareSession.ProgressLoop.DecideCompletion | engine/protocol/src/send.rs:535-561 | the announcement is reserved iff the readings had caught up, the ledger was empty, no request is recent, and none was reserved |
| ShareSession.ProgressLoop.FinishSession | engine/protocol/src/send.rs:669-679 | the final check after all tasks ended |
| RateLimit.WindowBound | engine/native/src/rate_limit.rs:54-94 | after any history, at most burst + ceil((end - start) / interval) messages of one id are allowed in any window, with any mix of peers and prunes |
| RateLimit.PotentialStep | engine/native/src/rate_limit.rs:54-82 | one call costs an interval of potential when allowed and never gains more than elapsed time; the table stays within 512 entries |
| RateLimit.BurstIsServed | engine/native/src/rate_limit.rs:64-82 | a peer with n tokens has its next n messages allowed |
| RateLimit.WaitingIsServed | engine/native/src/rate_limit.rs:54-82 | a tracked peer with t tokens that waited n whole intervals has its next min(burst, t + n) messages served within 2^32 intervals, whatever other peers do; the only ones refused find it pruned and the table full |
| RateLimit.PacedIsServed | engine/native/src/rate_limit.rs:54-82 | a peer that calls at most once per interval is always served, in any table |
| RateLimit.CaseIsIgnored | engine/native/src/rate_limit.rs:55 | ids are one peer iff they differ in the case of letters only |
| RateLimit.PruneUnseenIff | engine/native/src/rate_limit.rs:57-94 | a newcomer makes the code prune a full table and any calls of other peers follow: an idle peer's next admitted call has the verdict and leaves the tokens of its old bucket iff that bucket would still be idle; its refill clock is never earlier |
| RateLimit.PruneIsConservative | engine/native/src/rate_limit.rs:57-94 | in all such runs the prune is not seen while the elapsed intervals fit in a u32 |
| RateLimit.WrapShowsThePrune | engine/native/src/rate_limit.rs:57-82 | for every burst, a run of calls from the empty table: 512 peers at time 0, a newcomer once all are idle, and a peer allowed exactly 2^32 intervals after time 0 whose old bucket would have refused it |
| RateLimit.NewcomerRefusedIffFull | engine/native/src/rate_limit.rs:57-67 | a newcomer is refused iff 512 peers are tracked and all are below a full burst |
| RateLimit.QuotientCountsIntervals | engine/native/src/rate_limit.rs:69-71 | the nested truncating quotient is the number of whole intervals |
| RateLimit.UnpairedRateLimiter.AllowMessage | engine/native/src/rate_limit.rs:54-82 | the imperative call computes the step function the bounds are about |
| RateLimit.UnpairedRateLimiter.PruneIdle | engine/native/src/rate_limit.rs:86-94 | after the loop a peer is tracked iff it was and cannot send a full burst now, with its bucket unchanged |
| PairedStore.AllowlistIsConnectable | engine/native/src/device_identity.rs:99-222 | after every sequence of operations the allowlist is the set of connectable records |
| PairedStore.RestartChangesNobody | engine/native/src/node.rs:1889-1902 | a restart, with or without identity rotation, leaves the allowlist as it was |
| PairedStore.HostPairKeepsInvIff | engine/native/src/node.rs:341-377 | a host pairing keeps the match iff the stored id is the connection's, or both were already allowed |
| PairedStore.HostPairUnderAnotherId | engine/native/src/node.rs:341-377 | an input on which it fails: record 1 over connection 2 allows 2 until the next restart, and 1 from then on |
| PairedStore.OthersUntouched | engine/native/src/device_identity.rs:99-205 | an operation on one peer leaves every other record and standing alone |
| PairedStore.PairKeepsTimeAndTrust | engine/native/src/device_identity.rs:99-125 | pairing a known peer keeps its pairing time and trust and takes the new profile, contact time and relay if given; an unknown peer is stored as given; either is allowed |
| PairedStore.RowOpChangesOneField | engine/native/src/device_identity.rs:127-205 | rename, trust, touch and unpair each change one field of the record; an inferred unpair only an active one |
| PairedStore.UnpairingTakesAccess | engine/native/src/node.rs:641-677 | after a forget there is neither record nor access; after an unpair no access, unless it was inferred of a stale record |
| PairedStore.RotationMakesStale | engine/native/src/device_identity.rs:207-222 | rotation makes active records stale and changes nothing else |
| PairedStore.PairedDeviceStore.RememberDevice | engine/native/src/device_identity.rs:99-125 | refreshes an existing row, keeping its pairing time and trust, or appends a new one |
| PairedStore.PairedDeviceStore.ForgetDevice | engine/native/src/device_identity.rs:162-170 | the loop keeps exactly the other rows |
| PairedStore.PairedDeviceStore.MarkUnpairedRemotely | engine/native/src/device_identity.rs:187-205 | marks the row and reports whether there is one |
| PairedStore.PairedDeviceStore.MarkStaleAfterRotation | engine/native/src/device_identity.rs:207-222 | active rows become stale, and their number is returned |
| PairedStore.PairedDeviceStore.LoadAllowed | engine/native/src/node.rs:1889-1902 | the loop returns the connectable ids |
| PairedStore.AccessControl.ForgetPaired | engine/native/src/node.rs:1117-1154 | allowlist, then store, both without the peer |
| PairedStore.AccessControl.HandleForget | engine/native/src/node.rs:641-677 | a received Forget marks a known record and removes it from the allowlist |
| PairedStore.AccessControl.ApplyRemoteUnpair | engine/native/src/paired_connections.rs:530-585 | applied iff the record is active |
| Pairing.MutualConsent | engine/native/src/node.rs:582-608 | every commit in every run is preceded by the peer storing its record and then answering yes; commits per peer exceed neither the pending insertions nor the yeses the peer gave |
| Pairing.CommitConsumesInvite | engine/native/src/node.rs:689-735 | a commit happens only in a step that removes a pending invite to exactly that peer and reads that peer's yes |
| Pairing.AnswerIsTaken | engine/native/src/node.rs:582-622 | a pending invite's answer from an unpaired peer removes the invite; a yes stores the peer as active under the invite's profile, allows it and logs a commit; a no changes no record |
| Pairing.OtherAnswersAreIgnored | engine/native/src/node.rs:582-608 | an answer without a pending invite, or from a paired peer, changes nothing |
| Pairing.PairingSucceeds | engine/native/src/node.rs:1224-1316 | a reachable state in which invite, accept, reply and response have left both nodes with active records and access |
| Pairing.AcceptIsPrepared | engine/native/src/node.rs:1491-1526 | accepting stores and allows the sender and prepares a yes |
| Pairing.DeclineIsPrepared | engine/native/src/node.rs:1537-1548 | declining prepares a no and changes nothing else |
| Pairing.AnswerIsSent | engine/native/src/node.rs:1607-1617 | a prepared answer becomes a message to its peer |
| Pairing.RecognitionIsAnswered | engine/native/src/node.rs:461-475 | a Recognition is refused iff neither the session nor the allowlist knows the peer, and otherwise its contact time is noted |
| Pairing.RefusalUnpairsIff | engine/native/src/paired_connections.rs:520-585 | a refusal turns an active record off iff it is read ten seconds after the pairing time or later, and else changes nothing |
| Pairing.ForgetTakesAccess | engine/native/src/node.rs:641-677 | a Forget from a peer with an active record marks it and takes its access, on any session |
| Pairing.ForgettingIsTold | engine/native/src/node.rs:1117-1171 | forgetting removes record and access and sends a Forget |
| Pairing.DialRecognizes | engine/native/src/paired_connections.rs:307-331 | a Recognition is sent iff the record is active |
| Pairing.RestartKeepsRecords | engine/native/src/node.rs:811-848 | a restart keeps the records, drops open exchanges and allows exactly the connectable ids |
| Pairing.RepairKeepsGrace | engine/native/src/device_identity.rs:103-119 | pairing a known peer again does not change whether a refusal from it is inside the grace period |
| Pairing.NoFalseUnpair | engine/native/src/paired_connections.rs:307-379 | without Forgets, and with early refusals read within the grace period, a stored record stays active and allowed and no refusal is issued after its issuer's commit |
| Pairing.ActiveIffTimely | engine/native/src/paired_connections.rs:520-528 | without Forgets, both records stay active throughout a run iff no early refusal is read late |
| Pairing.LateRefusalUnpairs | engine/native/src/paired_connections.rs:307-379 | one late refusal turns an active record off, in any state |
| Pairing.FalseUnpairHappens | engine/native/src/paired_connections.rs:520-528 | a reachable state in which a pairing both sides committed is off on one side, though nobody forgot it |
| Pairing.NodeService.AcceptNearbyInvite | engine/native/src/node.rs:1491-1535 | the record is stored as active, the peer is allowed and a yes is queued, as one step |
| Pairing.NodeService.RespondPairedInvite | engine/native/src/node.rs:1465-1486 | answers an allowed peer only |
| Pairing.NodeService.HandleInviteResponse | engine/native/src/node.rs:582-622 | consumes the pending invite, and commits on yes |
| Pairing.NodeService.HandleRecognition | engine/native/src/node.rs:461-475 | re-reads the allowlist, and refuses iff the peer is not on it |
| Pairing.NodeService.ReadRefusal | engine/native/src/paired_connections.rs:520-585 | a refusal unpairs only outside the grace period, and stops the loop only with the record inactive |
| Pairing.NodeService.HandleForgotten | engine/native/src/node.rs:641-677 | what a Forget does on an inbound and on an outbound session |
| SessionMap.NeverHoldsTornDown | engine/native/src/paired_connections.rs:595-648 | in no interleaving is a connection held whose owner has torn it down |
| SessionMap.EntryOutlivesOthers | engine/native/src/paired_connections.rs:595-648 | over any run from any state, an entry survives everything but its own teardown, a newer session with its peer, a forget of the peer or shutdown |
| SessionMap.EndedOwnersStay | engine/native/src/paired_connections.rs:595-648 | a task that was aborted or has torn down changes the map no more |
| SessionMap.RegistrationReplacesIff | engine/native/src/paired_connections.rs:244-260 | after any run, an inbound registration that looks, lets others act and then inserts replaces connection d iff it saw no session and d was the last one inserted for the peer in between and was not removed again |
| SessionMap.HeldIffInsertLasts | engine/native/src/paired_connections.rs:595-648 | an absent entry holds a connection after any run iff that connection's insert was the last for the peer and no teardown, forget or shutdown followed |
| SessionMap.RaceReplacesHeldSession | engine/native/src/paired_connections.rs:244-260 | the shortest interleaving in which a registration replaces a live session |
| SessionMap.SessionTable.RemoveSessionIf | engine/native/src/paired_connections.rs:627-648 | removes the entry only if it is this connection's |
| History.RowsEndOnce | src-tauri/src/history.rs:206-314 | every recorder opens at most one row and ends at most once; completed rows have no resumable store; at most 500 rows |
| History.EndedForGood | src-tauri/src/history.rs:231-293 | a row that has ended keeps its status in every later state of the run |
| History.EndingSays | src-tauri/src/history.rs:253-285 | the ended row holds the status, times, error, bytes, names and peers it was given, field by field; only a completed transfer loses its store pointer |
| History.StartOpensRow | src-tauri/src/history.rs:206-227 | a first start opens a row in progress with what the recorder knew, a second one none |
| History.FinalizeReachesRow | src-tauri/src/history.rs:231-293 | the first ending edits the recorder's row if it is there, a second one nothing |
| History.RecorderHears | src-tauri/src/history.rs:326-335 | over any run without a relaunch a recorder holds the last progress and names it was told |
| History.RecorderCountsPeers | src-tauri/src/history.rs:336-339 | and counts the peers that connected |
| History.LaunchLeavesNothingOpen | engine/native/src/history.rs:294-336 | a remark on the sweep: no row is in progress, ended rows are unchanged, and store pointers exist on disk |
| History.StepKeepsInv | engine/native/src/history.rs:244-336 | every operation keeps rows distinct and bounded, and a recorder that may still end a row finds it in progress |
| History.TransferHistoryStore.OpenRow | engine/native/src/history.rs:244-252 | newest first, oldest beyond 500 dropped |
| History.TransferHistoryStore.UpdateRow | engine/native/src/history.rs:258-271 | edits the row if it exists, and reports whether it does |
| History.TransferHistoryStore.DeleteRecord | engine/native/src/history.rs:274-283 | removes and returns the row |
| History.DeletedIsGone | engine/native/src/history.rs:274-283 | the row is gone and every other one stays |
| History.TransferHistoryStore.MarkInterrupted | engine/native/src/history.rs:297-315 | every open row becomes interrupted, and their number is returned |
| History.TransferHistoryStore.ForgetMissingPartialStores | engine/native/src/history.rs:318-336 | exactly the pointers to missing stores are dropped, and their number is returned |
| History.HistoryRecorder.FinalizeRow | src-tauri/src/history.rs:231-293 | writes the ending once, and announces iff the row was found |
| Export.NumberingInjective | engine/native/src/export.rs:71-101 | different indices give different candidate names, for every file name |
| Export.NumberedBeforeExtension | engine/native/src/export.rs:71-92 | a name with an extension is numbered before its last dot |
| Export.NumberedAtEnd | engine/native/src/export.rs:88-92 | a name without one, or with a leading dot only, is numbered at its end |
| Export.ResolveConflictPath | engine/native/src/export.rs:71-101 | returns the first free numbered path, and fails iff all 9,999 exist |
| Export.FailureNeedsFullDirectory | engine/native/src/export.rs:71-101 | so it fails only in a directory with at least 9,999 entries |
| Export.GetExportPath | engine/native/src/export.rs:103-122 | succeeds iff every component is a plain file name |
| Export.ValidNamesGoDown | engine/native/src/export.rs:103-122 | following a valid name component by component, dots and double dots included, ends at its export path under the root |
| Export.ForbiddenCharacters | engine/native/src/export.rs:113-122 | a backslash, colon or NUL anywhere in a name makes it invalid |
| Export.ExportPathInjective | engine/native/src/export.rs:103-111 | different names have different export paths, because the components give the name back |
| Export.FileSystem.CreateDirs | engine/native/src/export.rs:41-45 | fails iff a file is in the way, and adds directories only |
| Export.FileSystem.ExportEntry | engine/native/src/export.rs:28-66 | the exact condition of failure, and where the entry lands otherwise |
| Export.FileSystem.ExportToDirectory | engine/native/src/export.rs:21-69 | nothing existing changes; the entries are on distinct new paths of their own names under the root with their own content; they are the only new files; conflicts are reported exactly; on failure the next entry is one that cannot be exported |
| RollingLog.FittingIsLargest | src-tauri/src/logging.rs:239-256 | pruning keeps the longest run of newest files within both caps |
| RollingLog.LogsKeepASuffix | src-tauri/src/logging.rs:239-328 | over any run the files read oldest first are a suffix of everything written, the file being written is the newest of them, at most four exist, and disk use is within 4 MiB plus the open file, 5 MiB if no write exceeds 1 MiB |
| RollingLog.FittingWriteLosesNothing | src-tauri/src/logging.rs:320-328 | a write that fits in the open file, or finds it empty, is appended and removes nothing |
| RollingLog.OtherWriteStartsFile | src-tauri/src/logging.rs:309-328 | any other write is alone in a new file |
| RollingLog.RollingWriter.PruneFiles | src-tauri/src/logging.rs:239-256 | the loop with its running total keeps exactly that run |
| RollingLog.RollingWriter.Roll | src-tauri/src/logging.rs:309-316 | a new file, then a prune after which the empty new file is the newest of at most three |
| RollingLog.RollingWriter.WriteBytes | src-tauri/src/logging.rs:320-328 | rolls before a write that would pass the cap, and keeps the suffix |
| OpenTarget.ResolveOpenTarget | src-tauri/src/commands.rs:2304-2347 | one survivor is the target; several give the deepest common folder, which is inside the destination iff no surviving name was empty; the fallback is reached only for an empty name under the root |
| OpenTarget.SurvivorsAre | src-tauri/src/commands.rs:2310-2324 | the survivors are the relative, non-climbing names whose path exists, one for each |
| OpenTarget.EmptyNameLeavesDestination | src-tauri/src/commands.rs:2312-2345 | an empty name beside a file, where the deepest common folder is the parent of the destination |
| OpenTarget.NarrowTo | src-tauri/src/commands.rs:2337-2342 | the walk upward ends at the meet of the two paths, and runs out of parents only if one path is absolute and the other is not |
| OpenTarget.DeepestIsUnique | src-tauri/src/commands.rs:2330-2345 | the deepest common folder does not depend on the order of the names |
| Meters.MeterHoldsTheWindow | engine/protocol/src/progress.rs:59-71 | with times in order the deque is the part of the whole history within the window of the newest sample |
| Meters.SpeedMeter.Record | engine/protocol/src/progress.rs:59-71 | the popping loop keeps the deque in step with its history |
| Meters.StalledRateFalls | engine/protocol/src/progress.rs:75-87 | past the floor, a reading without new samples never rises |
| Meters.RateTimesElapsed | engine/protocol/src/progress.rs:75-87 | past the floor the reading times the measured time is the bytes between oldest and newest sample, and below it zero |
| Meters.ThrottleBound | engine/protocol/src/progress.rs:276-288 | at most 1 + bytes/min_bytes + time/min_secs updates are emitted |
| Meters.SilenceIsShort | engine/protocol/src/progress.rs:276-288 | whatever was offered last was emitted, or lies within both limits of what was |
| Meters.EmissionsArePaidFor | engine/protocol/src/progress.rs:276-288 | every emission after the first is charged to disjoint bytes or disjoint time |
| Meters.EmitThrottle.ShouldEmit | engine/protocol/src/progress.rs:276-288 | emits iff due, and remembers the emission only |
| Nearby.ProbesArePaced | engine/native/src/nearby.rs:95-132 | two probes of a device that stayed tracked start at least 60,000 ms apart, on any clock |
| Nearby.SightingIsAnswered | engine/native/src/nearby.rs:95-132 | the outcome and effect of every sighting; a tracked device is probed again iff a minute has passed |
| Nearby.IdentityIsShown | engine/native/src/nearby.rs:140-171 | a tracked device shows exactly the identity it answered with |
| Nearby.ChangeReportIsExact | engine/native/src/nearby.rs:140-171 | the field comparison is true iff the ordered list differs |
| Nearby.RunKeepsConsistent | engine/native/src/nearby.rs:77-196 | id, fingerprint and identified fields agree in every run |
| Nearby.NearbyRegistry.ObservePeer | engine/native/src/nearby.rs:95-132 | the five outcomes and their effect |
| Nearby.NearbyRegistry.SetDeviceIdentity | engine/native/src/nearby.rs:140-171 | returns true iff the list changes |
| Versions.IsNewer | src-tauri/src/android_update.rs:52-67 | on version texts: zero-padded numeric precedence of what they read as, then a release above its pre-releases |
| Versions.ReadsAsWritten | src-tauri/src/android_update.rs:36-50 | any written version reads back as its numbers and whether its tag is non-empty, whatever white space, leading v and build metadata surround them |
| Versions.UnreadableIsNewerIff | src-tauri/src/android_update.rs:36-67 | a text no part of which is a number is newer iff the other text reads as a pre-release of version zero and it has no tag itself |
| Versions.PartlyReadable | src-tauri/src/android_update.rs:36-67 | "1.x" reads as [1, 0] and is newer than "0.9" |
| Versions.MalformedCanBeNewer | src-tauri/src/android_update.rs:50-67 | an empty version is newer than "0-b" |
| Versions.NewerIsAsymmetric | src-tauri/src/android_update.rs:52-67 | irreflexive and asymmetric, for lists of any lengths |
| Versions.NewerIsTransitive | src-tauri/src/android_update.rs:52-67 | transitive |
| Versions.TiedIff | src-tauri/src/android_update.rs:52-67 | neither is newer iff the padded cores and the pre-release flags agree |
| Versions.TiesAreAnEquivalence | src-tauri/src/android_update.rs:52-67 | "neither is newer" is an equivalence |

## Left out

- Endpoint ids, connections, row ids and fingerprints are opaque; ids are canonical, as the code compares them. Signatures are modelled as honest senders.
- Store writes are atomic and succeed; JSON, temporary files and the keychain are not modelled.
- `RequestProgress` sits inside the ledger's map and is modelled as a value there; the map is updated in place.
- Sums of byte counts are unbounded; only the saturating products are bounded to 64 bits.
- Blocked peers and the handshake hook appear in `Pairing` as lost messages; identity rotation appears in `PairedStore` only.
- Storing a record, changing the allowlist and sending are one step in `Pairing` and `PairedStore`; the code awaits between them, so a peer can be refused in the short time after its record is stored and before it is allowed.
- Pairing.NodeService.AcceptNearbyInvite: gives the joint end state of storing, allowing and queueing, not their order within the call; that the record is stored before the answer is sent is `Pairing.MutualConsent`.
- Pairing.NoFalseUnpair: speaks about runs without identity rotation, because rotation changes the ids the run is about.
- The fresher display name that a nearby commit takes from the registry is not modelled; it is not part of any property.
- Presence, waiters and backoff of the connect loop: a failed dial sets presence without looking at the session map, so it is no function of this state.
- How a sizes probe is recognised is a flag on the arriving request; periodic progress and active-count emissions are not modelled.
- The transfer clock and the payload split are short branch lists.
- Recorder fields computed by plain expressions (received shape, average speed, export time) are not modelled.
- A partial file or directory left by a blob copy that fails half-way is not modelled; a copy either happens or not.
- Clearing and disabling logs, and files with equal times: file times are taken to grow with creation.
- Lower-casing of endpoint ids is modelled for ASCII letters, which is what hexadecimal ids are made of.
- Seconds and speeds are reals; floating-point rounding is not modelled.
- The unpaired-message policy table, configuration checks, device types and display names are branch lists with little to prove.
- iroh, QUIC, relays, mDNS, blob transfer, the WebAssembly bridge, the desktop shell and the user interface are not part of this model.

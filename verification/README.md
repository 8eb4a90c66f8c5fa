# Agent turn network control: a verified model

The daemon keeps one append-only log, `channel.jsonl`, per session. Councils and delegations are
driven by commands. A command reads the log, decides, and appends at most one event (a response-window
timeout and a runner dispatch append several). Everything else, from the current draft to the cost
totals, is recomputed by scanning the log. This project models that engine in Dafny and proves what
its writers and readers guarantee about each other.

| file | part of the system |
|---|---|
| `Prelude`, `Text`, `Events` | shared types, string operations, the event envelope and payload keys |
| `Cursors`, `Framing`, `Channel` | cursors, the byte framing of the log file, appends and retries |
| `Scans`, `Lifecycle`, `ArgumentGraph`, `AutoSpeaker` | the log scans on which council decisions rest |
| `Council`, `Control`, `Membership` | council commands, block, resume, cancel and stream bookkeeping |
| `CouncilRuns`, `CouncilSafety`, `ResponseWindows`, `GraphSafety`, `Verdict`, `StatusReaders` | runs of requests, what every reachable log guarantees, and the readers that judge it |
| `Dispatch`, `SelectedSpeaker`, `GrantDispatch`, `DispatchRuns` | running the member that a grant selects |
| `Accounting`, `AccountingSafety`, `Echoes`, `DispatchAccounting` | reading the dispatch back from the log |
| `RuntimeEvidence`, `PromptWindow`, `MemberRuntime` | evidence on speeches, quoted speeches, the member's stream consumer |
| `Delegation`, `DelegationRetries`, `Sessions`, `CostTotals` | delegations, the single-open-session rule, the two cost aggregations |
| `ShortIds`, `CouncilScript`, `FullCouncil` | one council session worked out request by request, from the preparation to the finalization |
| `PaddedRaise`, `Shortfalls`, `RefusedSpeech`, `LateReport`, `ReopenedSession` | runs in which the code does what its guards suggest it does not |

How it is built. Each scan has a recursive specification and a method with the source's loop, proved
equal. Commands are decided by functions of what the scans found; the methods on `Channel.Session`
run the scans and append, and their contracts equate the whole new log and the answer with a pure
outcome function. A reachable log is the result of `CouncilRuns.Run` on any list of requests.
`CouncilRuns.RunHistory` proves one invariant by one induction: every event was justified by the
prefix it was recorded on. The safety results are read off that invariant, so they hold although a
resume may name any old block and jump back to its phase.

Assumptions.

- Each command on a session (read the log, decide, append) is atomic. Sessions interleave freely.
- The reaction to a grant appends several events. No other command's event comes between them, and a
  crash may cut them off after any of them. The daemon appends them one by one under no lock of its own
  on the session.
- A payload is a dictionary in the source. Here each key that the code reads is a typed field holding
  what the code's accessors return, so an absent key is its accessor's default. An explicit payload
  turn of zero is not told apart from an absent one.
- Only the daemon fills the runtime-evidence key (`RuntimeEvidence.OnlySpeechesStamped`), and event ids
  that are printed into cursors are non-empty, trimmed and free of newlines.
- A council's member list is canonical, as `Membership.CreationIsCanonical` shows for created councils.
- JSON encoding is a codec that is injective and writes no raw newline (`Framing.Lawful`); section 7
  of RFC 8259 requires control characters to be escaped.
- Run ids and clock-based ids of a dispatch are parameters; the theorems that need them fresh or free of
  padding say so.

Where the code does not keep what its guards suggest, the code is modelled as it is, the condition under
which it does is proved, and a run in which it does not is given:

- The late-answer gate trims command ids and the retry lookup does not, so an answer under a padded
  command id passes on a turn that is closed (`ResponseWindows.LateAnswerExactly`; the run:
  `PaddedRaise.SettledTurnTakesPaddedRaise`).
- The speak command trims the contribution type and the status reader does not, so a padded
  `new_axis` is accepted and later reported as an orphan (`GraphSafety.NoOrphansExactly`; the run:
  `Shortfalls.PaddedNewAxisReadsAsOrphan`).
- A delivery report always moves the session to `waiting_user`, even from a terminal phase
  (`Sessions.DeliveryReopensExactly`; the run: `ReopenedSession.LateReportReopens`).
- Outside Discord threads the finalize guard asks for no delivery proof, and the lifecycle status then
  reports the finalized council's visible closeout as missing (`Verdict.FinalizedVerdictExactly`; the
  run: `Shortfalls.FinalizedWithoutProof`).
- A runner that answers a grant with a successful speech for another turn of its own, or under a
  semantic status other than `succeeded`, gets the speech recorded, and the accounting does not pass the
  grant (`DispatchRuns.SpokenGrantPassesExactly`; the runs: `RefusedSpeech.SpokenAndJudged`).
- Automatic selection starts its maximum at minus two to the thirtieth and names nobody when no score
  exceeds it (`AutoSpeaker.QualityAwareSelection`; the run: `Shortfalls.FloorRaiseNamesNobody`).
- Projection and transcript treat events without an invocation id and restarted invocations differently
  (`CostTotals.AgreeExactly`; a log: `CostTotals.RestartCountsTwice`).

`dafny verify dfyconfig.toml` checks the project.


## Model

| member | source | states |
|---|---|---|
| `CouncilSafety.FinalizeSafety` | internal/storage/council.go:732-803 | In every reachable log a finalization rests on an earlier vote request that names the highest draft, with no draft ever after it, a round larger than all earlier ones, and exactly one non-blocking ballot per member, cast between request and finalization and never repeated in the whole log |
| `CouncilSafety.MandateFound` | internal/storage/council.go:1249-1280 | The same mandate for any log whose events are each justified by the log before them |
| `CouncilSafety.OneVotePerRound` | internal/storage/council.go:1241-1248 | Two ballots of one member in one draft and round are the same event |
| `CouncilSafety.RequestIsLatest` | internal/storage/council.go:749-766 | A vote request names a recorded draft, none before it is higher, and its round exceeds every earlier round |
| `CouncilSafety.DraftsAreNumbered` | internal/storage/council.go:714-748 | The highest draft version equals the number of drafts recorded, whatever was blocked and resumed in between |
| `CouncilSafety.DraftMeansReady` | internal/storage/council_discussion_lifecycle.go:313-319 | Any log that has a draft still has its opening, every discussion turn and every closeout |
| `CouncilSafety.LifecycleNeverBlocksFinalize` | internal/storage/council.go:1566-1585 | While a vote is open the lifecycle contributes no closeout diagnostics, so it can never be why a finalization is refused |
| `CouncilSafety.TerminalAbsorbs` | internal/storage/council.go:391-393 | After a terminal phase the phase never changes and only acknowledgements, heartbeats and dispatch notes are recorded |
| `CouncilSafety.ClosedOnce` | internal/storage/events.go:157-162 | A council is closed at most once, and the phase cached in session.yaml always equals the phase of the last event |
| `CouncilSafety.SpeechFollowsGrantFollowsRaise` | internal/storage/council.go:614-697 | Every speech has an earlier grant of its turn to exactly its speaker, which has an earlier raise with a stance by that member for that turn |
| `CouncilSafety.PreparationWaitsForAttendance` | internal/storage/council.go:905-943 | In a thread-bound council preparation comes after an agenda that was locked once every member had accounted for attendance after the request |
| `CouncilSafety.GateHolds` | internal/storage/council.go:905-943 | What the attendance scan accumulates means real events: a request, an answer after it per member, an agenda after all answers |
| `CouncilSafety.HistoryUniqueIds` | internal/storage/events.go:38-119 | Event ids never repeat in a reachable log |
| `CouncilRuns.RunHistory` | internal/storage/council.go:390-824 | Over any sequence of council commands, blocks, resumes of any old block, cancels, acknowledgements, heartbeats and dispatch events, every recorded event satisfied its guard on the log it was recorded on |
| `CouncilRuns.ApplyHistory` | internal/storage/delegation.go:354-406 | Each single request preserves that invariant, including a resume that jumps back to the phase of an arbitrary earlier block |
| `CouncilRuns.TransitionJustified` | internal/storage/council.go:390-824 | Whatever action the transition accepts, the event it leads to meets the guard and phase conditions stated per event type |
| `CouncilRuns.SpeechAfterNote` | internal/daemon/runrt.go:74-206 | A speech accepted before the success note is written is still acceptable after it |
| `CouncilRuns.RunnerSpeechHistory` | internal/daemon/selected_speaker.go:95-123 | Recording success note and validated speech one after the other keeps every council guarantee |
| `Council.CouncilTransition` | internal/storage/council.go:390-824 | The transition as the source runs it, scan by scan, equals the decision function of the log for all eighteen actions and their errors |
| `Council.RecordCouncilEvent` | internal/storage/council.go:84-95 | The command changes the session exactly as the pure outcome says: same log, same receipt or error |
| `Council.RecordWindowTimeout` | internal/storage/council.go:97-156 | The sweep records the drops that the outcome function lists and stops at the first refusal |
| `Council.CheckVotes` | internal/storage/council.go:1249-1280 | Passes exactly when each member has a last ballot in the open round and it is not a block |
| `Council.CheckWindowAccepts` | internal/storage/council.go:1034-1047 | Accepts exactly when there is no window, or its deadline has not passed and someone is still missing |
| `Council.DropAllStep` | internal/storage/council.go:126-154 | One more member of a sweep adds one more outcome, or ends the sweep with that refusal |
| `Scans.ScanCurrentTurn` | internal/storage/council.go:968-979 | Finds an upper bound of every envelope and payload turn |
| `Scans.ScanLatestDraft` | internal/storage/council.go:1209-1219 | Finds a version that no recorded draft exceeds |
| `Scans.ScanLatestRound` | internal/storage/council.go:1220-1228 | Finds a round that no payload of the log exceeds |
| `Scans.ScanOpenVote` | internal/storage/council.go:1229-1240 | Scanning backwards finds the latest vote request with no draft after it, or none |
| `Scans.ScanVoted` | internal/storage/council.go:1241-1248 | Finds a ballot of the member in this draft and round exactly when one exists |
| `Scans.TallyVotes` | internal/storage/council.go:1249-1279 | The tally map holds for every member the last ballot of the round, and nothing for those who did not vote |
| `Scans.AccountWindow` | internal/storage/council.go:1049-1125 | One pass gives the window, everyone who answered the turn, the members still missing in order, the automatic drops and the state |
| `Scans.ScanLatestWindow` | internal/storage/council.go:996-1032 | Scanning backwards finds the last poll of the turn |
| `Scans.ScanResponseConflict` | internal/storage/council.go:1177-1197 | Reports a conflict exactly when an earlier answer stands in the way of this one |
| `Scans.CheckAttendance` | internal/storage/council.go:905-943 | Decides the gate by the fold over attendance and agenda events |
| `Scans.ScanAlreadyPosted` | internal/storage/council.go:867-888 | Finds a posted runner speech of the actor and turn exactly when there is one |
| `ResponseWindows.TimeoutSweep` | internal/storage/council.go:97-156 | A successful sweep adds exactly one automatic drop per silent member, none for others, leaves nobody missing, and any later sweep returns zero and changes nothing |
| `ResponseWindows.SettledTurnStaysSilent` | internal/storage/council.go:525-613 | Once everyone has answered a polled turn or been dropped, no participant raise or drop for it is recorded again, even after a new poll, unless its command id is a padded reuse |
| `ResponseWindows.LateAnswerExactly` | internal/storage/council.go:1136-1147 | On such a turn a new raise or participant drop gets through exactly when it is otherwise good and its trimmed id, but not its id, is already used for the same kind of answer |
| `ResponseWindows.SettledIsClosed` | internal/storage/council.go:1034-1047 | A settled turn is closed at every time, whichever poll of it is the latest |
| `ResponseWindows.SweepReachable` | internal/storage/council.go:126-154 | A sweep is itself a run of drop commands |
| `ResponseWindows.TimeoutDropAppends` | internal/storage/council.go:560-613 | A successful timeout drop of a member who has not answered is never mistaken for a retry |
| `PaddedRaise.SettledTurnTakesPaddedRaise` | internal/storage/council.go:1136-1147 | A concrete run (prepare, poll, raise, the raise again with a trailing blank in its command id) in which a settled turn takes another answer |
| `Membership.CanonicalCouncilMembers` | internal/storage/council.go:361-388 | Accepts or refuses a member list as the fold over its trimmed entries does |
| `Membership.CreationIsCanonical` | internal/storage/council.go:361-388 | A member list is accepted exactly when it is non-empty and its trimmed entries are distinct, not blank, not reserved and not the moderator; the council then has exactly those members |
| `Lifecycle.DiscussionLifecycle` | internal/storage/council_discussion_lifecycle.go:49-176 | The status loop with its sets, maps and counter computes the fold over the log and the report on it |
| `Lifecycle.ReadinessMonotone` | internal/storage/council_discussion_lifecycle.go:49-176 | Readiness for a proposal survives every extension of the log, with the same opening |
| `Lifecycle.VisibleIndexes` | internal/storage/council_discussion_lifecycle.go:64-148 | Each numbered speech is justified: discussion turn t shows at t+1, the k-th member to close out right after the last discussion turn plus k, all below the terminal index N+P+2 |
| `Lifecycle.CloseoutIndexes` | internal/storage/council_discussion_lifecycle.go:100-148 | Closeout indexes are consecutive from N+2 in the order of the first closeout speeches of distinct members, at most P of them |
| `Lifecycle.ReadyCoversEveryTurn` | internal/storage/council_discussion_lifecycle.go:120-176 | When ready, the assigned indexes are exactly 2 to N+P+1: no gap and no overlap with the terminal turn |
| `Lifecycle.AssignmentsPersist` | internal/storage/council_discussion_lifecycle.go:64-148 | With unique ids a speech that has been given a visible index and stage keeps both in every extension of the log |
| `Lifecycle.AssignmentsHold` | internal/storage/council_discussion_lifecycle.go:64-148 | Every filled discussion turn and every closeout has a speech of the log at its index |
| `Verdict.FinalizedVerdictExactly` | internal/storage/council_discussion_lifecycle.go:252-286 | In a reachable log with a configured lifecycle the verdict on a finalized council is finalized exactly when the finalization carries posted evidence; thread-bound councils always have it, and elsewhere a finalization without evidence is reported as missing its proof |
| `Shortfalls.FinalizedWithoutProof` | internal/storage/council.go:1268-1280 | A whole council from preparation to finalization, reachable and finalized without evidence, whose verdict says that the proof is missing |
| `Verdict.FinalMeansReady` | internal/storage/council_discussion_lifecycle.go:313-319 | A finalized council still has its opening, every discussion turn and every closeout, whatever is recorded afterwards |
| `Verdict.LifecycleCompletionVerdict` | internal/storage/council_discussion_lifecycle.go:252-286 | The verdict read off the lifecycle fold and the last terminal event of the log |
| `ArgumentGraph.ValidateSpeech` | internal/storage/council_argument_graph.go:133-191 | The write-time check equals the verdict function in all three modes |
| `ArgumentGraph.ParseArgumentTargetLinks` | internal/storage/council_argument_graph.go:283-328 | Parses every link or fails with the error of the first bad one |
| `ArgumentGraph.ParseExtends` | internal/storage/council_argument_graph.go:283-328 | Links that parse against a log parse to the same targets against every extension, with or without the demand for a rationale |
| `ArgumentGraph.DiscussionQuality` | internal/storage/council_argument_graph.go:515-700 | The status loop over a growing prior log computes the judgement fold |
| `GraphSafety.NoInvalidRelations` | internal/storage/council_argument_graph.go:515-700 | For every reachable log without echoes the status reader reports no invalid relation in any mode, and counts every speech |
| `GraphSafety.NoOrphansExactly` | internal/storage/council_argument_graph.go:133-191 | In quality_required mode it reports no orphan exactly when no late linkless speech was stored with padding around its contribution type |
| `StatusReaders.QualityStatusSound` | internal/storage/council_argument_graph.go:515-700 | What the status says of any reachable log that has no delivery echoes: no invalid relation, relations only to earlier speeches and never in a circle, and in quality_required mode no orphan exactly when no padded late linkless speech was stored |
| `StatusReaders.CouncilDiscussionQualityStatus` | internal/storage/council_argument_graph.go:515-700 | The status resolves the policy, computes the echo ids of the log and judges the log with them, or reports the policy error |
| `Shortfalls.PaddedNewAxisReadsAsOrphan` | internal/storage/council_argument_graph.go:133-191 | A whole run (prepare, poll, raise, grant, speak, and once more with a padded new_axis) in quality_required mode: the last speech is accepted, the log is reachable, and the status reports an orphan in it |
| `GraphSafety.RelationsPointBack` | internal/storage/council_argument_graph.go:283-328 | Every reported relation names a strictly earlier speech and, if that speech makes claims, one of them |
| `GraphSafety.RelationsAcyclic` | internal/storage/council_argument_graph.go:515-700 | No path along reported relations returns to where it started |
| `AutoSpeaker.AutoCouncilSpeaker` | internal/storage/council_argument_graph.go:727-762 | The selection with its running best equals the choice function, errors included |
| `AutoSpeaker.QualityAwareSelection` | internal/storage/council_argument_graph.go:727-762 | A quality-aware choice has an eligible raise of the current turn, did not speak last, and has the best score with the smallest id among ties; when every score is at or below the floor it names nobody |
| `Shortfalls.FloorRaiseNamesNobody` | internal/storage/council_argument_graph.go:738-762 | A reachable log whose only raise is eligible and scores at the floor: the selection succeeds, names nobody, and the grant that relies on it is refused |
| `AutoSpeaker.BestOfIsBest` | internal/storage/council_argument_graph.go:738-762 | The running best is the maximum exactly when some raise beats the floor |
| `AutoSpeaker.SelectionOrderIndependent` | internal/storage/council_argument_graph.go:738-762 | The chosen member and score do not depend on the order of the raises |
| `Channel.Session.AppendEvent` | internal/storage/events.go:38-119 | Appends the stored form of a fresh valid event and keeps the cached phase, status, turn and speaker in step with the log, or changes nothing |
| `Channel.Session.AppendIdempotentEvent` | internal/storage/stream.go:477-492 | A known command id is answered from the log or refused, and never appends |
| `Channel.CachedPhaseSticky` | internal/storage/events.go:157-162 | The cached phase is terminal exactly when some event ever was, and until then is the phase of the last event |
| `Channel.EventByIdAt` | internal/storage/delegation.go:837-844 | With unique ids a lookup finds the event at the offset that carries the id |
| `Channel.RuntimeRows` | internal/storage/participant_runtime_evidence.go:22-73 | One row per member with its handle, generation and the cursor of the speech |
| `Cursors.ParsePrint` | internal/storage/stream.go:63-76 | Parsing undoes printing exactly for offsets below 10^12 and non-empty newline-free ids |
| `Cursors.PrintParse` | internal/storage/events.go:409-411 | A cursor that parses is the canonical spelling of what it names |
| `Framing.ReadLogIndex` | internal/storage/events.go:164-229 | The line loop reads what the specification of the file format says, or its error |
| `Framing.SplitFrame` | internal/storage/events.go:164-229 | Framing and splitting any non-empty list of newline-free lines returns the list |
| `Framing.ReadEncodeAll` | internal/storage/events.go:67-88 | Whatever was appended under fresh ids is read back |
| `Framing.TornAppend` | internal/storage/events.go:67-88 | A prefix of the file that still extends the old one is the old log, the new log, or rejected |
| `Framing.CrashConsistent` | internal/storage/events.go:67-88 | After a crash anywhere in any run of appends the surviving bytes read as a prefix of the appended records or are rejected |
| `Framing.LogFile.Append` | internal/storage/events.go:67-88 | One append adds the encoded record and a newline to the bytes |
| `Control.BlockSession` | internal/storage/delegation.go:312-352 | Records a block that remembers the phase to resume, or refuses, exactly as decided from the log |
| `Control.ResumeSession` | internal/storage/delegation.go:354-406 | Resumes at the phase of whichever blocking event the request names |
| `Control.CancelSession` | internal/storage/delegation.go:261-310 | Answers a retried cancel before it looks at the phase |
| `Control.AcknowledgeCursor` | internal/storage/stream.go:248-281 | Records an acknowledgement for cursors that resolve in the log, without changing the phase |
| `Delegation.RecordDelegationEvent` | internal/storage/delegation.go:141-210 | The command equals the outcome function: replay first, then the phase gate, the transition, artifacts, payload and cause |
| `Delegation.ReplayExistingCommand` | internal/storage/delegation.go:215-259 | A known command id is decided again in the phase of the original and compared with it |
| `DelegationRetries.ResubmissionAnswers` | internal/storage/delegation.go:141-259 | A recorded artifact-free command can be resubmitted after any extension of the log, terminal or not: original offset and cursor, log unchanged |
| `DelegationRetries.ReuseNeverWrites` | internal/storage/delegation.go:215-259 | Reusing a recorded command id never writes, and is answered with the original exactly when the command is equivalent, otherwise refused |
| `DelegationRetries.TransitionExtends` | internal/storage/delegation.go:555-700 | A decision that a log allows in some phase is the same on every extension of the log |
| `Sessions.AtMostOneOpen` | internal/storage/session.go:49-53 | At no moment of any interleaving of commands, session scans and creations are two sessions open |
| `Sessions.FindActiveSession` | internal/storage/stream.go:380-433 | The scan finds none, the one, or several |
| `Sessions.SeenExactly` | internal/storage/stream.go:380-433 | None exactly when every session was terminal when it was read, several exactly when two were not |
| `Sessions.TerminalStays` | internal/daemon/daemn002.go:13-60 | No command but a delivery report leads out of a terminal phase, in council and delegation sessions alike |
| `Sessions.DeliveryReopensExactly` | internal/storage/stream.go:298-366 | A delivery report reopens a terminal session exactly when it meets the demands on any report (participant of a delegation, recorded escalation, target and detail, unused ids), and otherwise changes nothing |
| `Sessions.DeliveryBreaksSafety` | internal/storage/stream.go:350-365 | so without the guard any acceptable report on a terminal session makes a second open session next to any open one |
| `ReopenedSession.LateReportReopens` | internal/storage/stream.go:350-365 | A concrete interleaving (create, escalate, cancel, create another, report) in which the late report is recorded and two sessions are open |
| `Dispatch.DispatchRunner` | internal/daemon/runrt.go:74-206 | The retry loop on the session equals the attempt-by-attempt run |
| `Dispatch.DispatchShaped` | internal/daemon/runrt.go:74-206 | Without append errors a dispatch writes started (retry started)* and then failed, discarded, or succeeded and the terminal event, with at most MaxRetries+1 starts, and the return after the loop is never reached |
| `Dispatch.StatusOf` | internal/daemon/runrt.go:380-391 | Every result maps to a status that the envelope accepts |
| `DispatchAccounting.GrantPassesExactly` | internal/storage/selected_runner_accounting.go:55-326 | On an untouched grant the accounting passes it exactly when the dispatch ended in a successful speech of the granted turn and, in a session bound to a Discord thread, that speech carries evidence that proves its delivery |
| `DispatchRuns.SpokenGrantPassesExactly` | internal/daemon/runrt.go:380-402 | When a dispatch has ended in a recorded speech, the grant passes exactly when the runner's last result names no semantic status but succeeded and its payload speaks for the granted turn, by naming it or by naming none while it is the current one; in Discord threads too |
| `RefusedSpeech.SpokenAndJudged` | internal/storage/selected_runner_accounting.go:55-326 | Whole reactions to two open grants: a successful reply to the first turn is always recorded in a reachable log, and the accounting passes the grant only when it is the first one and the semantic status is a success, so both a speech for another turn and one that the runner calls failed are recorded and refused |
| `DispatchRuns.EvidenceProves` | internal/daemon/selected_speaker.go:194-234 | Whatever sending the speech came to, evidence that the daemon records on it satisfies every demand that the accounting makes on proof of delivery |
| `DispatchRuns.SelectedGrantPassesExactly` | internal/daemon/selected_speaker.go:32-93 | The same for the selected speaker with its canonical validator, whatever the runner and the sending into the thread return |
| `DispatchRuns.ReactionReachable` | internal/daemon/council_handlers.go:748-852 | Whatever the runner returns, the reaction to a grant leads from a reachable log in discussion to a reachable log in discussion, so every council guarantee still holds |
| `SelectedSpeaker.ValidatedIsSpoken` | internal/daemon/selected_speaker.go:95-123 | A validated runner speech is the event of the member's own speak command with the runner attached |
| `GrantDispatch.DispatchSelectedSpeakerAfterGrant` | internal/daemon/council_handlers.go:748-852 | The reaction to a grant, step by step on the session, equals its outcome function |
| `GrantDispatch.AtMostOneDispatch` | internal/daemon/council_handlers.go:748-852 | However often the grant command is retried and wherever crashes cut the recording, a grant causes at most one first attempt |
| `GrantDispatch.IncompleteStartIsSettled` | internal/daemon/council_handlers.go:748-764 | A start left without an outcome becomes one dispatch-failed diagnostic, after which nothing is written for the grant |
| `GrantDispatch.OutcomeIsFinal` | internal/daemon/council_handlers.go:1013-1024 | A recorded outcome makes every later reaction leave the log alone |
| `GrantDispatch.ScanOutcome` | internal/daemon/council_handlers.go:1013-1033 | One pass finds whether the dispatch has an outcome and whether it has started |
| `StatusReaders.SelectedRunnerAccountingFromIndex` | internal/storage/selected_runner_accounting.go:55-326 | With the echo ids of the log itself: the loop over rows and maps updated in place computes the fold, each grant gets its final status, runner status, link and follow-up flag, and the session passes exactly when there are grants and none needs a follow-up |
| `StatusReaders.Close` | internal/storage/selected_runner_accounting.go:224-326 | The status of a grant is the pass, and no follow-up is required, exactly when the grant passes; a linked speech is only reported where there is one |
| `StatusReaders.EchoesNeverDecide` | internal/storage/selected_runner_accounting.go:153-183 | Which speeches count as echoes never decides about a grant or the session |
| `StatusReaders.FailureSticksForReaders` | internal/storage/selected_runner_accounting.go:215-241 | Although a longer log may have other echoes, a grant once linked to a failure needs a follow-up in every extension, and the session never passes |
| `StatusReaders.RunnerlessSpeechesChangeNoVerdict` | internal/storage/selected_runner_accounting.go:153-183 | Inserting or deleting runnerless speeches changes which of them are echoes but no row and no verdict |
| `Accounting.Ledgers.Observe` | internal/storage/selected_runner_accounting.go:66-214 | One event updates rows, indexes and counters as the fold does |
| `AccountingSafety.FailureSticks` | internal/storage/selected_runner_accounting.go:215-241 | After a failure, discard or dispatch failure is linked to a grant no extension of the log makes it or the session pass |
| `AccountingSafety.AccountGrows` | internal/storage/selected_runner_accounting.go:66-214 | Every extension of a log only adds rows and evidence and never replaces a linked speech |
| `AccountingSafety.RunnerlessSpeechesChangeNothing` | internal/storage/selected_runner_accounting.go:153-183 | Logs that differ only in runnerless speeches have the same grant rows and the same verdicts |
| `Echoes.SelectedRunnerVisibleEchoIds` | internal/storage/selected_runner_accounting.go:656-757 | The two passes compute the echo ids of the specification |
| `Echoes.EchoesSimulateAccounting` | internal/storage/selected_runner_accounting.go:656-741 | The echo detector's own books agree with the accounting on every grant's member, turn, starts, successes and invocations |
| `Echoes.EchoHasLinkedSpeech` | internal/storage/selected_runner_accounting.go:742-771 | Every runnerless speech classed as an echo shares member and turn with a runner speech that the accounting lists as linked |
| `MemberRuntime.Runtime.RunOnce` | internal/memberruntime/runtime.go:81-139 | The consume, acknowledge and save loop equals its specification for any frames and any failures |
| `MemberRuntime.ReplayStream` | internal/storage/stream.go:86-112 | Serves the log after the cursor, then what was added later, with the cursor of each event |
| `MemberRuntime.SavesConsecutive` | internal/memberruntime/runtime.go:81-139 | For any frame list the saved offsets are consecutive from the starting cursor |
| `MemberRuntime.ServedRunSound` | internal/storage/stream.go:86-143 | A run against the server never sees a gap, a corrupt frame or replay after live, and keeps everything up to the cursor handled |
| `MemberRuntime.NothingSkipped` | internal/memberruntime/runtime.go:81-139 | Across any number of failing runs on a growing log every actionable event up to the saved cursor was handed to the handler |
| `MemberRuntime.CursorNeverMovesBack` | internal/memberruntime/runtime.go:81-139 | The saved cursor never moves back |
| `RuntimeEvidence.EvidenceResolves` | internal/storage/participant_runtime_evidence.go:10-121 | In reachable logs every row of every speech resolves to that very speech, and the generation is one throughout |
| `RuntimeEvidence.MembersNeverRehydrate` | internal/storage/selected_runner_prompt_evidence.go:564-638 | A grant to a council member that does not itself ask for it never requires rehydration |
| `RuntimeEvidence.SelectedRunnerRehydrate` | internal/storage/selected_runner_prompt_evidence.go:575-638 | The backward scan equals the decision function |
| `RuntimeEvidence.GenerationIsOne` | internal/storage/participant_runtime_evidence.go:91-121 | The generation lookup finds one for every member and handle |
| `PromptWindow.SourcesBeforeSelected` | internal/storage/selected_runner_prompt_evidence.go:442-474 | Gathering backwards with a cap and reversing in place yields the last speeches before the grant, oldest first |
| `PromptWindow.ReverseInPlace` | internal/storage/selected_runner_prompt_evidence.go:466-468 | The swap loop reverses the filled part of the array |
| `PromptWindow.WindowPrecedesGrant` | internal/storage/selected_runner_prompt_evidence.go:442-474 | The quoted speeches all precede the grant and never exceed the limit |
| `CostTotals.AgreeExactly` | internal/storage/projection_rows.go:287-377 | Projection and transcript count the same events exactly when every runner event names its invocation and none reports again after a restart |
| `CostTotals.RestartCountsTwice` | internal/storage/projection_rows.go:287-377 | An invocation started and reporting twice costs twice in the projection and once in the transcript |
| `CostTotals.TotalsAgree` | internal/storage/transcript.go:239-276 | Then calls, tokens, dollars and missing costs agree, and an invocation is counted once though several of its events carry its cost |
| `CostTotals.TranscriptCostSummary` | internal/storage/transcript.go:239-276 | The summary loop computes the transcript fold |
| `CostTotals.ProjectionState.ApplyRunnerEvent` | internal/storage/projection_rows.go:287-377 | One event updates row and totals as the projection fold does |
| `CostTotals.ReplayProjection` | internal/storage/projection.go:327-375 | Replaying a log from an empty state computes the projection fold |
| `CostTotals.ProjectionRemembers` | internal/storage/projection_rows.go:287-377 | A row counts as aggregated exactly when some report of its invocation has no start after it |
| `CostTotals.TranscriptRemembers` | internal/storage/transcript.go:239-276 | The transcript has counted an invocation exactly when it has reported |

## Left out

- File system, permissions, locking, sockets, command line, registry, YAML and SQLite: input and output over libraries.
- SHA-256 and JSON: handles are opaque values, encoding is a parameter.
- Running the member's process and sending to Discord: arbitrary results supplied by parameters.
- Prompt text, transcripts, briefs and export bundles: formatting.
- Commands that run concurrently on one session: a late runner result may then carry a stale phase.
- `ExtendLimits` and the escalation-batch listings: nothing shown writes the event that makes limits extendable, and batch counters are only defined for fresh batch ids.
- Resume phases that are not phase names: `Events.Phase` has one value for all of them, so an escalation with such a phase resumes at `working`.
- Participant runtime readiness, the preflight before a grant and the timeout policy: one reason or none, in `GrantDispatch.Environment`.
- The linked-authority result check of a finalization: one flag of the payload.
- Recognising runtime noise and a named new axis in free text: flags of the payload.
- Hard-warning tallies and the quality evidence of prior speakers: derived display values.
- The validation of a rehydrate reference: only the decision whether one is needed.
- The other projection tables: only runner rows and cost totals.
- Width of integers: scores, turns and token counts are unbounded, dollars are reals.
- Retries of council commands: polls and speeches change on retry, so no general idempotence is claimed for them.
- The cursor file of a member: saving is atomic in the model, and surrounding white space is not added or removed.
- Channel.Session.AppendEvent: does not model the write failing half way; `Framing.TornAppend` and `Framing.CrashConsistent` state what the file then holds.
- ResponseWindows.SettledTurnStaysSilent: says nothing about the daemon's own automatic drops, whose uniqueness check compares the sender.
- CostTotals.ReplayProjection: runner rows and cost totals of one session only; the other tables of the replayed state are not modelled.
- CostTotals.TotalsAgree: for the log of one session; rows of other sessions with the same invocation id are not modelled.
- StatusReaders.SelectedRunnerAccountingFromIndex: the list of diagnostics is not modelled, the codes for unproven deliveries are one status, and the counter of succeeded invocations is the set of their ids.

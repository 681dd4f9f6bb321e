# Chitra, modelled and proved in Dafny

Chitra delivers text into agent sessions and keeps the goals those sessions work towards. This project models its hard parts in Dafny 4.11 and proves what they promise, for every input, every interleaving or every sequence of calls.

`dafny verify dfyconfig.toml` checks the whole project.

| component | files |
|---|---|
| dispatch queue with crashes, workers and goal writers; lane lock | `DispatchQueue.dfy`, `DispatchSafety.dfy`, `DispatchTheorems.dfy`, `DispatchFates.dfy`, `LaneLock.dfy` |
| input-row scanner and pane check | `PaneInput.dfy`, `TerminalTokens.dfy` |
| screen classifier, status broker, handoff | `Classifier.dfy`, `Verdicts.dfy`, `StatusWire.dfy`, `Broker.dfy`, `BrokerEffects.dfy`, `StatusBroker.dfy`, `BrokerRuns.dfy`, `BrokerTheorems.dfy` |
| goal store, completion gate, enrolment, review | `Goals.dfy`, `EnrolmentContract.dfy`, `GoalStore.dfy`, `GoalEffects.dfy`, `GoalRuns.dfy`, `GoalTheorems.dfy`, `GoalAudit.dfy`, `CompletionGate.dfy`, `Enrolment.dfy`, `Review.dfy` |
| box roster | `Board.dfy` |
| capability authorization | `Autonomy.dfy` |
| account registry | `AccountRegistry.dfy` |
| shared text and ordering | `Basics.dfy`, `Text.dfy`, `TextOrder.dfy` |

Protocols are state machines over their durable writes, with `Crash` allowed between any two of them. Objects that update fields in place (the broker, the goal store, the account registry) are classes whose methods are proved equal to a step function and state on their fields what they leave; the properties are proved about that function over whole runs. Loops are methods with invariants, proved against an independent definition.

## Where the code does not do what its text says

Each of these is a lemma, with the exact condition where there is one.

- `transfer_goal` says both writes happen or neither. The hold is written first, and the successor's own write can still be refused: `GoalTheorems.TransferIsAtomicIff` gives the condition, `GoalTheorems.LostRegistryStrands` the family that fails, `GoalTheorems.SampleStrands` one instance.
- A lane whose name has surrounding whitespace can be enrolled, but a tactical mutator that rewrites its stored record is refused, because the record's lane name is stripped before it is compared: `GoalTheorems.TacticalRewriteAccepted`.
- A crash between the hard link and the unlink of a queue move leaves an order in two directories; enqueuing an id the queue still holds puts a second file under it: `DispatchTheorems.CrashSplitsAMove`, `DispatchTheorems.ReenqueueSplitsAnId`. `DispatchTheorems.Conservation` bounds the directories by the enqueues, the cut moves and the moves under way, and `DispatchTheorems.CutMoveIsRepaired` shows that a cut need not stay.
- `LaneLock` admits two holders when two processes reclaim a dead owner's file and one unlinks the file the other has just created: `LaneLock.SplitReclaimAdmitsTwo`. `LaneLock.TheftIsTheCondition` says that this unlink is exactly what breaks it.
- `LaneLock` says that the lock of a dead owner is reclaimed by the next acquirer. It is exactly when the owner had written its pid; an owner that dies between creating the file and writing to it leaves an empty file that nobody reclaims: `LaneLock.DeadOwnerIsReclaimedIff`, `LaneLock.CrashCanWedge`.
- Tightening a grant can improve an authorization: a new amount limit turns an exceeded unit limit from denied into incomplete. `Autonomy.TighteningHelpsIff` says exactly when.
- The faint-text scanner reads `38;5;2` as faint and does not read `02` as faint, unlike SGR in section 8.3.117 of ECMA-48: `PaneInput.ExtendedColourMisread`, `PaneInput.LeadingZeroMissed`. `PaneInput.ReadsAsStandardIff` says exactly when a sequence is read as the standard reads it.
- A wrapped line overflows its column exactly when the text has a character wider than the column: `Board.WrapCell`, `Board.NarrowColumnOverflows`. The roster's text columns are at least seven wide and no character is wider than two.
- A crash of an enrolment leaves the goals document as it was exactly until the goal is committed: `Enrolment.CrashIsCleanIff`. It leaves the goal stored and its nonce unconsumed between the goal write and the nonce write (`Enrolment.CrashLeavesTheNonce`), and also between finding the nonce replaced and rolling back (`Enrolment.CrashSkipsTheRollBack`).

## Model

| member | source | states |
|---|---|---|
| DispatchTheorems.AtMostOnePaste | src/chitra/dispatchd.py:1525-1580 | over every run with crashes, reclaims, requeues and re-enqueues, no two steps write the same order id into its pane |
| DispatchTheorems.PasteIsRecorded | src/chitra/dispatchd.py:1525-1580 | a paste happens only if the id's history shows none before it, and leaves one there |
| DispatchTheorems.SentIsProven | src/chitra/dispatchd.py:1594-1616 | a stored SENT result comes after the signed ledger row for that id, session and nudge, which comes after the confirmation, which comes after the nonce was minted |
| DispatchTheorems.PublishedIsConcluded | src/chitra/dispatchd.py:1639-1805 | over every run, the step that stores a result stores the status the latest attempt for that very order ended with |
| DispatchTheorems.OutcomeStands | src/chitra/dispatchd.py:1765-1797 | once an attempt has ended with a status no other status is stored for that order until a new attempt checks or sends it; in particular a delivery that ended in SENT is never recorded as anything else |
| DispatchFates.AttemptsEndAsJudged | src/chitra/dispatchd.py:1293-1616 | an attempt ends with a status exactly when the stored goal, the lifecycle value, a veto, a lost lane, a kept nonce or the send result says so, and with that status |
| DispatchFates.AttemptsPendAsJudged | src/chitra/dispatchd.py:1293-1616 | an attempt leaves its order put off, already settled or to the ledger exactly when a held goal, a lifecycle value, a hold, the lane lock, a stored result, a failure or the ledger says so |
| DispatchFates.OutcomesAreSettled | src/chitra/dispatchd.py:1639-1805 | from every reachable state an outcome about to be applied can be: the order ends in processed with that status, SENT on its signed row, or in deferred with no result and its nonce kept, or, with its row unsigned, still claimed with its nonce |
| DispatchFates.WorkersOutcomesAreSettled | src/chitra/dispatchd.py:1808-1905 | the same for an outcome that a worker recorded for the next drain |
| DispatchFates.EveryOrderMeetsItsFate | src/chitra/dispatchd.py:1293-1805 | from every reachable state in which a readable order waits, it can be delivered and stored as SENT in processed if the goal, the lifecycle and the hold admit it; refused, it ends there as BLOCKED; postponed, in deferred without a result |
| DispatchFates.EveryFateIsMet | src/chitra/dispatchd.py:1293-1805 | for every order, goal and lifecycle value there is such a state |
| DispatchFates.PostponedComesBack | src/chitra/dispatchd.py:964-1026 | a deferred order can be requeued with everything else as it was |
| DispatchFates.AbandonedClaimComesBack | src/chitra/dispatchd.py:950-961 | a claim whose process is gone returns to orders on the next sweep |
| DispatchFates.LeftoversAreCleared | src/chitra/dispatchd.py:1808-1905 | a delivery record or a foreign owner marker whose order is no longer in flight can be cleared with everything else as it was |
| DispatchFates.StoredResultFinishes | src/chitra/dispatchd.py:835-947 | an order whose result is already stored, found when it is claimed again or under the lane lock, is finalized with that result, SENT only on its ledger row, and never pasted again |
| DispatchFates.UnreadableIsSetAside | src/chitra/dispatchd.py:2080-2104 | an order that cannot be read ends in invalid with a FAILED result |
| DispatchTheorems.StepExtends | src/chitra/dispatchd.py:874-925 | no step takes back history, rows or a result's status, and only the signing step adds a ledger row, so recovery never creates one |
| DispatchTheorems.RunExtends | src/chitra/dispatchd.py:835-947 | the same between any two states of a run |
| DispatchTheorems.PasteIsGated | src/chitra/dispatchd.py:1303-1523 | at every paste the goal stored at that moment matches the order's contract and is neither held nor done, no guard hold is active unless the sealed bypass applies, the lifecycle value read under the lock allows the order, and no other thread delivers to the lane |
| DispatchTheorems.Conservation | src/chitra/dispatchd.py:415-469 | no enqueued id is lost, it reaches processed or invalid only with a stored result, it is in at most one directory for each enqueue, each cut move and each move under way, and an id enqueued once is one inode wherever it is linked and, with no cut move, in exactly one directory plus one for each move under way |
| DispatchTheorems.CutMoveIsRepaired | src/chitra/dispatchd.py:437-469 | a reachable state has a cut move in its past, none under way, and the order in one directory again |
| DispatchTheorems.ResultIsFinal | src/chitra/dispatchd.py:1639-1805 | the status and order of a stored result never change again |
| DispatchTheorems.CrashSplitsAMove | src/chitra/queue_state.py:432-460 | a reachable state has one order in in_flight and deferred at once |
| DispatchTheorems.ReenqueueSplitsAnId | src/chitra/dispatch.py:149-188 | a reachable state has two files under one id |
| DispatchSafety.InvByStep | src/chitra/dispatchd.py:1910-2326 | every step of every process keeps the invariant: one working thread per order, evidence ordered nonce, paste, confirmation, signature, publication, places linked to one inode, gates still valid under the lane lock |
| DispatchSafety.GatesByOther | src/chitra/goals.py:113-138 | a goal or lifecycle writer cannot change what a delivering thread has checked, because both hold the lane lock |
| LaneLock.MutualExclusion | src/chitra/dispatch.py:1617-1673 | while no reclaim unlinks the file of a lock object that is inside, at most one lock object holds the lane and the file names its process |
| LaneLock.TheftIsTheCondition | src/chitra/dispatch.py:1647-1665 | the first step after which two holders follow without any further unlink is exactly an unlink of the file of a lock object that is inside |
| LaneLock.ExclusiveOnSchedule | src/chitra/dispatch.py:1617-1673 | the lane is exclusive when no owner terminates, or each stale reclaim is one step, or no unlink meets a file other than a dead owner's |
| LaneLock.SplitReclaimAdmitsTwo | src/chitra/dispatch.py:1647-1665 | a reachable state has two holders of live processes |
| LaneLock.AttemptAcquiresIff | src/chitra/dispatch.py:1607-1665 | an attempt acquires exactly when there is no file or a dead owner's, and leaves a new file naming its process; otherwise the file and every other lock object are as they were |
| LaneLock.ReleaseFreesTheLane | src/chitra/dispatch.py:1667-1673 | after a release there is no file and the next attempt of any other lock object acquires |
| LaneLock.DeadOwnerIsReclaimedIff | src/chitra/dispatch.py:1647-1665 | when an owner dies the next attempt reclaims the lane exactly if the owner had written its pid; otherwise, with no reader of an earlier dead owner left, nobody ever holds the lane again |
| LaneLock.CrashCanWedge | src/chitra/dispatch.py:1620-1645 | a reachable state is wedged so |
| PaneInput.TokensRoundTrip | src/chitra/dispatch.py:114-129 | splitting a row into SGR, other escapes and characters loses nothing |
| TerminalTokens.SgrLengthIff | src/chitra/dispatch.py:123-126 | the SGR sequence at the front of a text is the one front that the pattern describes |
| TerminalTokens.ControlLengthIff | src/chitra/dispatch.py:114 | the same of the escape pattern, two characters or parameters, intermediates and final |
| TerminalTokens.WrittenTokensRead | src/chitra/dispatch.py:454-498 | any sequence of SGR, other escapes and characters other than ESC, written out, is read back as it is |
| TerminalTokens.RuleLineIff | src/chitra/dispatch.py:120 | a row is a horizontal rule exactly when it prints rule characters only, at least one, between spaces |
| TerminalTokens.InputRowIff | src/chitra/dispatch.py:121-122 | a row is an input row exactly when it prints, after spaces, the marker and a draft without a line break |
| PaneInput.InputRowDraftIsAllDim | src/chitra/dispatch.py:454-498 | the one-pass scanner is true exactly when decoding the row to styled characters leaves a visible character after the marker and all of them are faint |
| PaneInput.BlankDraft | src/chitra/dispatch.py:411-451 | the draft captured by the row pattern is blank exactly when the decoded row has no visible character after the marker |
| PaneInput.ClaudeCodeInputRow | src/chitra/dispatch.py:416-434 | the last row with the marker between two horizontal rules, or none |
| PaneInput.CodexTuiInputRow | src/chitra/dispatch.py:437-451 | the last row with the Codex marker, or none |
| PaneInput.PaneInputCheck | src/chitra/dispatch.py:575-619 | a recognised input row is safe exactly when no visible draft character has normal intensity; without one, a non-empty capture is exactly when it is a known idle one or ends in an idle prompt |
| PaneInput.PlainRowsFollowTheStandard | src/chitra/dispatch.py:473-482 | without 38/48 and without leading zeros the scanner's styling is that of ECMA-48 |
| PaneInput.ReadsAsStandardIff | src/chitra/dispatch.py:473-482 | an SGR sequence is read as ECMA-48 reads it, from every intensity, exactly when the last parameter spelling 0, 2, 22 or nothing sets what the last one meaning them outside colour arguments sets |
| PaneInput.ExtendedColourMisread | src/chitra/dispatch.py:473-482 | an indexed colour ending in 2 is read as faint |
| PaneInput.LeadingZeroMissed | src/chitra/dispatch.py:473-482 | `02` is not read as faint |
| Verdicts.AcceptedIff | src/chitra/agent_status.py:348-417 | the parser accepts exactly the manifests of 1 to 128 distinctly named rules that each meet its bounds |
| Classifier.ParsedRulesOk | src/chitra/agent_status.py:348-417 | an accepted manifest's ordered rules are its own rules, each within the parser's bounds, blocked exactly with a blocker kind |
| Classifier.FirstIsBest | src/chitra/agent_status.py:411-417 | scanning the stably sorted rules finds the first rule of highest priority of the unsorted manifest, for any test |
| Classifier.BestIs | src/chitra/agent_status.py:553-568 | that rule passes, none that passes has a higher priority, and none earlier the same |
| Classifier.MatchesMeans | src/chitra/agent_status.py:149-165 | a rule matches iff all `all` matchers hit its region, some `any` matcher if there are any, and no `not` matcher |
| Classifier.RegionOf | src/chitra/agent_status.py:144-147 | a bottom region is the last `lines` lines or the whole of a shorter screen, a whole region the screen |
| Verdicts.HitLeavesEvidence | src/chitra/agent_status.py:459-488 | a matcher other than a regular expression hits a region exactly when it leaves evidence on some line of it |
| Classifier.PositiveMatchLines | src/chitra/agent_status.py:459-488 | exactly the screen lines where a positive matcher places its evidence |
| Classifier.IdleAnchorBelowBlocker | src/chitra/agent_status.py:491-511 | true exactly when a bare row with idle evidence lies below every line of the blocker's evidence |
| Classifier.ClassifySnapshot | src/chitra/agent_status.py:514-632 | the pass over the rules returns the specified verdict, with every rule's evaluation |
| Classifier.RateLimitWins | src/chitra/agent_status.py:561-577 | a matching rate-limit rule always wins, the highest priority and then the earliest |
| Classifier.WinnerIs | src/chitra/agent_status.py:561-597 | otherwise the best match wins unless it is a blocker that yields to work on a screen not known stale or to a bare row below it; it is then named and displaced by the best working match on a screen not known stale, by the best idle match otherwise |
| Verdicts.VerdictIs | src/chitra/agent_status.py:561-632 | on the manifest as written and field by field: which rule wins, by priority and place, among rate limits, blockers, working and idle rules; the state, kind, source, version, resume time, suppressed blocker and evaluations the answer carries; idle by default when nothing matches |
| Verdicts.FallsBack | src/chitra/agent_status.py:528-560 | without a readable manifest the answer is idle by fallback and says why |
| Classifier.BlockedCarriesKind | src/chitra/agent_status.py:610-632 | a screen-derived state is blocked exactly when it carries a blocker kind |
| StatusWire.ExplainRoundTrip | src/chitra/agent_runtime.py:273-391 | parsing a written explanation gives it back exactly when it is well formed, and fails otherwise |
| StatusWire.PaneRoundTrip | src/chitra/agent_runtime.py:112-195 | the same for a pane status, including its agreement with its explanation |
| StatusWire.ReportRoundTrip | src/chitra/agent_runtime.py:56-92 | the same for a lifecycle report |
| StatusBroker.AgentStatusBroker.DoPublish | src/chitra/agent_runtime.py:683-734 | the new state and answer are those of the publishing step: nothing on an unchanged identity, otherwise one more revision, number and event |
| StatusBroker.AgentStatusBroker.ReportAgent | src/chitra/agent_runtime.py:442-486 | the new state is that of the reporting step, with its argument, freeze and session checks; accepted, the pane shows the reported agent, session, state and source and keeps the report, and nothing else changes |
| StatusBroker.AgentStatusBroker.ClearAgentAuthority | src/chitra/agent_runtime.py:488-498 | the new state is that of the releasing step: exactly a matching report is dropped, with the pane's evidence, and no status changes |
| StatusBroker.AgentStatusBroker.ObservePane | src/chitra/agent_runtime.py:500-562 | the new state is that of the observing step; unless a done pane is seen idle, the pane shows the observed place with the claim of the report on a governed pane and of the classification otherwise, one revision on exactly when that identity differs |
| StatusBroker.AgentStatusBroker.ReportCompletion | src/chitra/agent_runtime.py:564-578 | the new state is that of the completing step; the pane is done by the completion gate in the given session, and nothing else changes |
| StatusBroker.AgentStatusBroker.ImportValidated | src/chitra/agent_runtime.py:661-677 | only an empty broker imports, and then holds the snapshot's statuses, reports and number |
| BrokerRuns.StepKeepsSound | src/chitra/agent_runtime.py:442-578 | every operation keeps each status well formed, within the sequence number, and each report in agreement with its status |
| BrokerRuns.ClassifiedReady | src/chitra/agent_status.py:348-391 | what the manifest parser bounds is what the handoff validator later demands of an explanation |
| BrokerTheorems.HandoffRoundTrip | src/chitra/agent_runtime.py:615-677 | for every run from an empty or imported start the snapshot validates, importing it restores statuses, lifecycle reports and number, and the replacement is a valid start again |
| BrokerTheorems.FreezeHolds | src/chitra/agent_runtime.py:420-428 | from a frozen state no call but a thaw changes anything |
| BrokerTheorems.EventsAreConsecutive | src/chitra/agent_runtime.py:724-734 | at most 1024 events are retained, numbered consecutively up to the current number |
| BrokerTheorems.ReplayCatchesUp | src/chitra/agent_runtime.py:596-613 | folding the events after any still retained point of the run onto the map at that point gives the current map |
| BrokerTheorems.NumberIsTotal | src/chitra/agent_runtime.py:705-727 | the number is the sum of all pane revisions |
| BrokerTheorems.FreshnessAlways | src/chitra/agent_runtime.py:521-541 | the stored count is the length of the run of equal observations since the last report or release |
| BrokerTheorems.StaleIffRepeated | src/chitra/agent_runtime.py:534-549 | a screen is classified as stale exactly when the previous observation since the last report or release was the same |
| BrokerTheorems.EveryCallLeaves | src/chitra/agent_runtime.py:442-578 | over every run, each call leaves the fields its kind says: the pane it names as shown above, every other pane, report and evidence as it was, the number and events grown by exactly the published event |
| BrokerTheorems.ObservationIsShown | src/chitra/agent_runtime.py:500-562 | over every run, after an accepted observation of an ungoverned pane that is not done and seen idle, the pane's claim is the classification of that screen, live unless the trail repeats, at the observed place |
| BrokerTheorems.ValidatesIff | src/chitra/agent_runtime.py:615-660 | a snapshot validates as given panes and reports exactly when schema and number are in order, every entry parses as the one listed, none is given twice or revised beyond the number, and every report names a pane that agrees with it |
| BrokerTheorems.WhatValidatesIsSafe | src/chitra/agent_runtime.py:615-677 | whatever snapshot validates, an empty broker imports it, holds exactly its panes and reports, and is a start of which everything proved of runs holds |
| CompletionGate.GapIsFurthest | src/chitra/completion_gate.py:104-119 | the chain of filters reports the first link no proof reaches |
| CompletionGate.CompletionReceiptIssues | src/chitra/completion_gate.py:84-119 | the issues are the gaps of the unproven items in order, none exactly when one passing concrete proof names every item, receipt and validator |
| CompletionGate.BackedByReceipts | src/chitra/validation_receipts.py:1458-1493 | every proof returned names its item, passes and cites the verified receipt on disk |
| CompletionGate.GateOpensIff | src/chitra/validation_receipts.py:1458-1493 | the gate opens exactly when there are items, each is proven by the claims and has its verified receipt, and the claim it rests on is concrete once it cites that receipt |
| CompletionGate.BuildDoneWhen | src/boardd/state.py:271-300 | proven equals total exactly when every item has a passing proof naming it |
| CompletionGate.GateImpliesBoard | src/boardd/state.py:240-268 | what passes the gate the board counts as proven |
| EnrolmentContract.ValidateEnrollmentContract | src/chitra/goals.py:413-486 | no issue exactly when the interview, the items, their distinct ids and receipts, the registry pins and the rendered conditions are all in order |
| GoalStore.Store.UpsertLocked | src/chitra/goals.py:762-893 | the guarded write: the first failing check, or the stored record in place of the old one |
| GoalStore.Store.UpsertGoal | src/chitra/goals.py:691-718 | the step of an upsert; accepted, a stored lane keeps its anchor, version, history and creation and what the record is silent about, a new one gets its frozen anchor, and no other lane changes |
| GoalStore.Store.RedirectGoal | src/chitra/goals.py:903-969 | the step of a redirect; accepted, exactly the supplied strategic values are new, the prior ones are recorded with the reason, the version is one on, and a done lane is back at work unverified |
| GoalStore.Store.RecordReviewRestart | src/chitra/goals.py:972-1007 | accepted, the history grows by the restart with both contracts and nothing else changes |
| GoalStore.Store.UpdateNow | src/chitra/goals.py:1010-1038 | accepted, each supplied value is in its own field and nothing else changes |
| GoalStore.Store.MarkCompletionGatePassed | src/chitra/goals.py:1119-1159 | accepted, the lane is pending close with one stored proof for each item that cites its verified receipt |
| GoalStore.Store.HoldGoal | src/chitra/goals.py:1162-1186 | accepted, the lane is held with the reason and time given and nothing else changes |
| GoalStore.Store.ResumeGoal | src/chitra/goals.py:1303-1313 | accepted, a held lane works again with its hold forgotten |
| GoalStore.Store.AddAsk | src/chitra/goals.py:1341-1351 | accepted, a new ask is last of the open ones and a known one changes nothing |
| GoalStore.Store.ResolveAsk | src/chitra/goals.py:1354-1432 | accepted, exactly the selected asks are no longer open and each is recorded, in order, with who retired it and on what basis |
| GoalEffects.EveryMutatorLeaves | src/chitra/goals.py:691-1432 | all of these on the stored fields alone, and that every other lane's record is as it was |
| GoalEffects.AcceptedIff | src/chitra/goals.py:691-1432 | over every run, each mutator is accepted exactly when its arguments and the lane's record meet its own inline condition |
| GoalEffects.CloseIff | src/chitra/goals.py:1462-1514 | over every run, a close is accepted exactly with a reason as a discard, or past the gate with the given or the stored proofs; it removes that lane and no other |
| GoalEffects.TransferEffect | src/chitra/goals.py:1204-1300 | what a transfer leaves: the original held for the first free successor name, the successor with the same direction and items, idle, linked back, the rest as it was |
| GoalEffects.TransferPlannedIff | src/chitra/goals.py:1189-1281 | over every run, a transfer passes its own checks exactly when its arguments are in order, the lane is stored and has not moved, a name is free and the successor is worded |
| GoalEffects.SuccessorNames | src/chitra/goals.py:1189-1201 | the successor of host:lane:pane is named host:lane-xfer:pane, numbered from the second on |
| GoalEffects.LaneNames | src/chitra/goals.py:397-405 | a reference names its lane in the second place, a bare name is the lane |
| GoalStore.Store.TransferGoal | src/chitra/goals.py:1204-1300 | the hold and then the successor, each refused or written on its own; completed, the original is on hold for the new lane and every other lane as it was |
| GoalStore.Store.CloseGoal | src/chitra/goals.py:1462-1514 | a close removes the record, administratively with a reason or past the completion gate |
| GoalRuns.StepKeepsSound | src/chitra/goals.py:762-893 | every mutator keeps sessions and lanes pairwise distinct, the enrolment contract, and done only with stored proofs |
| GoalRuns.StepFollows | src/chitra/goals.py:903-1007 | every mutator keeps each record in step with the journal of what was enrolled and redirected |
| GoalTheorems.DoneIsAlwaysProven | src/chitra/goals.py:1119-1159 | over every run, done-pending-verification is unreachable and done-pending-close implies a passing concrete stored proof of every frozen item |
| GoalTheorems.BoardOfStored | src/boardd/state.py:271-300 | for such a record the board reports proven equal to total |
| GoalTheorems.LanesStayDistinct | src/chitra/goals.py:796-832 | session refs and lane ids stay pairwise distinct and every record meets the enrolment contract |
| GoalTheorems.HistoryIsComplete | src/chitra/goals.py:903-969 | strategic history plus current values is the sequence of values enrolled and redirected to, up to surrounding whitespace, the version counts them, and the anchor is the enrolled one |
| GoalTheorems.VersionCountsRevisions | src/chitra/goals.py:930-956 | from version 1 with no history, the version is one plus the number of strategic entries |
| GoalTheorems.TacticalRewriteAccepted | src/chitra/goals.py:787-838 | a rewrite that keeps anchor, direction and proofs is refused exactly when the lane name is padded |
| GoalTheorems.TransferIsAtomicIff | src/chitra/goals.py:1282-1292 | in every reachable store a transfer that passes its own checks completes exactly when the registry still vouches for the items and no lane has the successor's name; otherwise the hold lands alone |
| GoalTheorems.LostRegistryStrands | src/chitra/goals.py:1282-1292 | every lane whose validators left the registry is held without a successor |
| GoalTheorems.SampleStrands | src/chitra/goals.py:1282-1292 | there is such a lane |
| GoalAudit.NothingIsErased | src/chitra/goals.py:839-882 | over any calls short of closing the lane, with upserts that say nothing about them, each open ask stays open or is recorded as retired, the retirement history only grows, and a transfer link is never severed |
| Review.RunRound | src/chitra/goal_enforcement.py:432-454 | a completed round has every verdict bound to one contract still stored after each; a redirected one saw the contract change; it fails exactly on an unbound reply or a failed read |
| Review.ReviewWatchedSession | src/chitra/goal_enforcement.py:324-461 | against any store, at most reviewer_count plus max_redirect_restarts reviewer calls; a signal combines one round whose contract still matched after every review; an error has one of its named causes; and every recorded restart names the two contracts read |
| Review.GoalFreezesIff | src/chitra/goal_enforcement.py:141-156 | a stored goal freezes exactly when it is worded, enrolled, specific enough and versioned; its contract is its own values, with the conditions frozen at enrolment first |
| Review.TacticsNeverRedirect | src/chitra/goals.py:972-1007 | recording a restart, like every tactical mutator, changes no lane's contract |
| Review.RedirectIsNoticed | src/chitra/goal_enforcement.py:141-156 | an accepted redirect always changes the lane's contract |
| Enrolment.EnrolmentIsAtomic | src/chitra/goals_cli.py:443-513 | for every interleaving with issuance, an enrolment that ends has stored the goal, as a first upsert leaves it and with every other lane as it was, on the nonce of its request that it answered, now consumed, or left the goals document as before; no token enrols twice |
| Enrolment.UndisturbedEnrolsIff | src/chitra/goals_cli.py:443-513 | from every state of every run, an enrolment with nothing in between ends, and enrols exactly when the lane is not stored, the nonce is the answered one of its request and not consumed, and the store accepts the record; otherwise both files are as they were |
| Enrolment.CommittedSettlesIff | src/chitra/goals_cli.py:499-512 | however it was disturbed, a committed enrolment completes exactly when the file still holds the nonce it checked, and is otherwise undone |
| Enrolment.IssueAnswersTheRequest | src/chitra/goals_cli.py:110-145 | an issue leaves the stored nonce of the same request or a fresh one that nothing was enrolled on, and touches nothing else |
| Enrolment.ConsumesOnlyWhatWasChecked | src/chitra/goals_cli.py:500-512 | consuming never overwrites a nonce issued in the meantime |
| Enrolment.CrashIsCleanIff | src/chitra/goals_cli.py:499-512 | for every interleaving, a crash of the enrolling process leaves the document as it was exactly before the commit; afterwards it leaves the goal stored and the checked nonce unspent |
| Enrolment.CrashLeavesTheNonce | src/chitra/goals_cli.py:499-506 | for every record that enrols, a crash between the commit and the nonce write does so |
| Enrolment.CrashSkipsTheRollBack | src/chitra/goals_cli.py:503-512 | for every record that enrols, so does a crash between finding the nonce replaced and the roll-back |
| Board.PadWidth | src/chitra/board.py:122-124 | padding reaches the column exactly when the text fits it |
| Board.WrapCell | src/chitra/board.py:127-182 | the lines are the greedy wrapping of the text's words: rejoined they are the words one space apart, a line breaks only where the next word or, inside a word too wide, the next character would not fit; and no line is wider than the column exactly when each character fits it |
| Board.ColumnWidths | src/chitra/board.py:377-396 | the columns and the frame add up to the larger of the terminal and 68 plus the session column; Goal and Now have 46 and 32 percent of the shared width or their minimum, Needs the rest |
| Board.TerminalWidth | src/chitra/board.py:366-374 | the columns given, or 100, kept between 80 and 160 |
| Board.SessionWidth | src/chitra/board.py:388-391 | the widest of the header and the names, at most 20 |
| Board.RenderBox | src/chitra/board.py:329-363 | every table line has exactly that width; the table is an edge, the header, a rule, the lanes with a rule between every two and an edge, and each line shows between bars the piece of every wrapped cell that belongs on it, padded to its column |
| Board.RenderRoster | src/chitra/board.py:206-224 | the same for the rows of any lanes, whose marker always fills its slot |
| Board.NarrowColumnOverflows | src/chitra/board.py:127-182 | no wrapping of a text keeps a character wider than its column within it |
| Autonomy.AuthorizeAction | src/chitra/autonomy.py:205-271 | on the fields of grants and uses: allowed exactly when the outcome is unchanged, evidence is complete and every use has an unexpired grant that covers its capability, target, amount and units; incomplete and denied likewise; each accepted grant is the first that permits its requirement |
| Autonomy.DispositionIs | src/chitra/autonomy.py:182-271 | the same of the disposition the lemmas below speak of |
| Autonomy.GrantOrderIrrelevant | src/chitra/autonomy.py:205-271 | policies with the same grants in any order give the same disposition |
| Autonomy.MoreGrantsNeverWorse | src/chitra/autonomy.py:205-271 | adding a grant never worsens the disposition |
| Autonomy.MoreRequirementsNeverBetter | src/chitra/autonomy.py:205-271 | adding a requirement never improves it |
| Autonomy.TimeNeverHelps | src/chitra/autonomy.py:182-203 | advancing time never improves it |
| Autonomy.TighteningHelpsIff | src/chitra/autonomy.py:182-271 | tightening a grant improves it exactly when every refused requirement is masked by a new amount limit and no other becomes refused |
| Autonomy.TighteningCanHelp | src/chitra/autonomy.py:182-203 | a policy that is answered less strictly once a limit is added |
| AccountRegistry.Registry.UpdateRegistry | src/chitra/account_registry.py:120-168 | a sweep leaves exactly the observed and the still fresh lanes, and reports exactly the verdicts that name another account than the stored entry, and the retained lanes it did not observe, each once, in order |
| AccountRegistry.HeldIsFresh | src/chitra/account_registry.py:120-168 | over any sweeps with one window and non-decreasing times, a lane is held exactly when its last observation is within the window of the latest sweep, with the identity seen then |
| AccountRegistry.HeldWasObserved | src/chitra/account_registry.py:120-168 | a held lane was observed by some sweep |

## Left out

Assumptions of the models:

- DispatchTheorems.AtMostOnePaste: one dispatcher process serves a queue at a time; two processes reclaiming the same claim at once are not modelled, and the file name of an order is its id.
- DispatchTheorems.PasteIsGated: goal writers hold the lane lock; enrolment and transfer successors write a lane that has no goal yet without holding its lock, and never as a guard hold.
- DispatchTheorems.Conservation: a requeue sweep of one order does not overlap another of the same order, and a drain pass is one step relative to a worker that writes its record; retry and lifecycle sidecars and the newer-schema degradation are not modelled.
- PaneInput.PlainRowsFollowTheStandard: a whole row is covered one way only; the exact condition is stated for each SGR sequence.
- Verdicts.HitLeavesEvidence: leaves out regular expressions, whose finds and the lines they end on are separate inputs.
- Classifier.PositiveMatchLines: a regular expression's finds are taken to end on lines of the region; a screen is its list of lines, bounded before it is split.
- BrokerTheorems.HandoffRoundTrip: inputs are well formed (non-empty names, pane ids of digits, digests of 64 hexadecimal digits); a snapshot that cannot be persisted is not modelled.
- Enrolment.EnrolmentIsAtomic: covers enrolments that return or raise; write errors are not modelled, tokens never repeat, and one session's nonce file is modelled.
- GoalAudit.NothingIsErased: leaves out a public upsert that names asks, retirements or links of its own, or asks to clear them, because the store takes those from its caller.
- Review.ReviewWatchedSession: one reviewer call is one step; the retries of a malformed reply inside a call are not modelled.
- Board.ColumnWidths: the products with 0.46 and 0.32 are exact floors; for the remainders that can occur, 50 to 135, the floating-point products truncate to the same integers.

Not modelled:

- tmux, ssh, sockets, the HTTP surface and subprocess transport, which are nondeterministic inputs here.
- JSON, YAML and TOML decoding, SHA-256 and HMAC, which become datatypes, injective values and set membership.
- Regular-expression vocabularies: directive voice, completion claims, concreteness of citations, plain English, idle prompts.
- Foreground tasks of a goal record, which are carried along and decide none of the properties above; schema migration.
- Lane lifecycle actions, transcripts, artifacts, conversation logs, the close gate's text matching and the transcript confirmation of a nudge, which would add only easy members.
- Liveness of delivery and of lock waits, which depends on timeouts.

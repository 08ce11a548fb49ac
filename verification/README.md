# phebs: protocol models

phebs is a Go code-search server. This project models its stateful protocols in
Dafny and proves what they keep over every run.

* `RuntimeSelectors`, `RuntimeStore`, `ServiceRuntime`: the controller that moves
  durable runtime selectors while holding leases on whatever a selector may
  name, including swaps that commit without being acknowledged.
* `StaleLease`, `CheckpointRecovery`, `MarkerControl`, `CheckpointTerminal`,
  `ReuseReports`: mutex-protected controls driven by workers, callbacks, readers
  and report tails. Each locked section is a function of the control's fields;
  the class of the same module performs it in place and keeps the same invariant. Any number of callers
  interleave in any order, and the invariants hold in every state of every run.
* `Registers`, `FinalAuthority`, `TailReadiness`: optimistic double reads over
  publications that others rewrite at any instant.
* `ExactReads`, `JsonKeys`: ordinal admission, the failure latch and the
  duplicate-key checker over a streaming decoder's own state.
* `ComponentInventory`, `TypedRuntime`, `WorkspaceReports`, `WorkspaceSequence`,
  `Installation`, `AnalysisUnit`: the smaller self-contained cores.
* `Permutations` and `Wrappers` hold what several modules share.

Digests and identities derived by hashing are taken as injective. Other
packages, clocks, contexts and input are nondeterministic: each call may fail,
and booleans stand for what a caller finds outside the mutex. A value such as
`failure` in the service runtime is the set of the causes joined in an error.

## Where the code does less than one might expect

* A final read loses a continuation when the checkpoint or the reuse control
  refuses after an earlier control made its own: `ReadRunsMade` gives the exact
  condition, `RefusalLosesRetention` an input.
* `HandleV3` fails when it is called after the stage is complete; only the one
  call that left Armed returns nil (`SuccessIsCompletion`, `LateCallFails`).
* A failed owner entry withdraws both typed-index flags (`FailedEntryLoses`,
  `EntryFailureLoses`), and an admission passes over a failure when its two loads
  straddle the end of a failed recovery (`PassingOver`, `AdmittedIsClean`,
  `StraddlingRun`).
* A missing relationship generation is an error, not a wait, exactly when the
  next pointer read finds the same pointer (`MissingRead`), so only if the
  published pointer left it and came back during one poll
  (`RetirementIsPending`, `ReturnIsError`).

## Model

| member | source | states |
|---|---|---|
| RuntimeSelectors.CountedByPlace | cmd/phebs/service_runtime.go:37-44 | for every generation, the leases out are exactly those filed in the current map, those filed in the unresolved map and those of the running call |
| RuntimeSelectors.KeptIsCovered | cmd/phebs/service_runtime.go:30-64 | if each durable selector matches an entry of one of the two maps, every generation it names is leased |
| RuntimeSelectors.SwapIsCovered | cmd/phebs/service_runtime.go:633-671 | whether or not a swap committed, the filed leases and those of its target cover what is durable, before and after they are filed |
| ServiceRuntime.Controller.AcquirePins | cmd/phebs/service_runtime.go:767-795 | both leases or none; a half-acquired pair is given back and never moves coverage |
| ServiceRuntime.Controller.InstallPins | cmd/phebs/service_runtime.go:797-804 | files the new pair, releases the one it displaces and nothing else |
| ServiceRuntime.Controller.ResolveUncertain | cmd/phebs/service_runtime.go:674-692 | an unresolved pair is installed when the durable row matches it and released when it does not; it is never lost |
| ServiceRuntime.Controller.EnsurePinned | cmd/phebs/service_runtime.go:740-765 | success means the durable selector itself is pinned; failure changes no entry |
| ServiceRuntime.Controller.LeaseConfirmed | cmd/phebs/service_runtime.go:711-731 | a pair leased for a selector is kept only if the selector is still durable afterwards |
| ServiceRuntime.Controller.SelectLocked | cmd/phebs/service_runtime.go:600-672 | success means the durable selector is exactly the backend and target asked for, and pinned; an unacknowledged commit leaves its leases in the unresolved map |
| ServiceRuntime.Controller.SettleFailedSwap | cmd/phebs/service_runtime.go:645-668 | the confirming read decides: committed is success, refuted releases, unreadable keeps the leases unresolved |
| ServiceRuntime.Controller.PinSelections | cmd/phebs/service_runtime.go:694-738 | success pins every durable selector afresh and empties the unresolved map; failure gives back what it took and changes nothing |
| ServiceRuntime.Controller.LeaseAll | cmd/phebs/service_runtime.go:707-732 | every row's leases, or after any failure none of them |
| ServiceRuntime.Controller.RetireRepository | cmd/phebs/service_runtime.go:810-831 | the durable selector leaves before the leases; a failed retirement releases nothing |
| ServiceRuntime.Controller.Close | cmd/phebs/service_runtime.go:833-843 | no lease is left |
| ServiceRuntime.Controller.CompleteV3 | cmd/phebs/service_runtime.go:448-489 | a target is returned only when catalog, state and relationship name each other |
| ServiceRuntime.Controller.PrepareV3Holding | cmd/phebs/service_runtime.go:405-429 | the holding target is complete and rebuilt from the immutable generation the v2 selector names |
| ServiceRuntime.Controller.HoldSelectedV2 | cmd/phebs/service_runtime.go:257-271 | success means the durable selector is the v3 holding target of that v2 selector |
| ServiceRuntime.Controller.WithV2Mutation | cmd/phebs/service_runtime.go:220-255 | the mutation runs only without a selector, under v3, when the summary already equals the publication, or after the holding target became durable; otherwise no v2 row changes |
| ServiceRuntime.Controller.AdvanceV3 | cmd/phebs/service_runtime.go:363-376 | success means a complete v3 target of the published search generation is durable and pinned |
| ServiceRuntime.Controller.SearchIsCurrent | cmd/phebs/service_runtime.go:287-315 | a selected search generation is current only if it is the published one and its catalog is the selected one |
| ServiceRuntime.Controller.ActivateSearch | internal/servicequery/reconcile.go:31-89 | answers the published search generation and changes v2 rows at most once |
| ServiceRuntime.Controller.ReconcileV2Search | cmd/phebs/service_runtime.go:273-324 | a v2 reader whose search generation must change is moved to its holding target before any v2 row changes; the answer is the published generation, and for a v2 selector its own |
| ServiceRuntime.Controller.V2Target | cmd/phebs/service_runtime.go:529-564 | a target is returned only when the v2 catalog, its summary and the relationship agree |
| ServiceRuntime.Controller.AdvanceV2 | cmd/phebs/service_runtime.go:326-361 | success with a selector means it is v2, pinned, the target that catalog, summary and relationship agree on, and of the published search generation; a new explicit choice names a generation with a v3 form |
| ServiceRuntime.Controller.AdvanceV2WithHolding | cmd/phebs/service_runtime.go:143-156 | success for a selected repository means its v2 target is served and a holding target for it is ready |
| ServiceRuntime.Controller.Advance | cmd/phebs/service_runtime.go:107-159 | an unconfigured repository is left alone; success of a configured one that was not pending means its kind of target is served, and of a v2 one that its holding target is ready |
| ServiceRuntime.Controller.ProcessChunk | cmd/phebs/service_runtime.go:161-188 | a chunk that settles its schedule advances; a continuation is success and whatever else is pending is deferred |
| ServiceRuntime.Controller.Serve | cmd/phebs/service_runtime.go:107-843 | any run of advances, chunks, mutations, retirements and repinnings after a successful PinSelections has no moment that leaves a durable selector's generation unleased, and changes no v2 row before an explicit v2 reader unless the summary already names the publication |
| StaleLease.FinalSnapshot | cmd/phebs/t422_stale_control.go:141-177 | accepts exactly nine ordered roots of one generation that make up the whole plan and contain the target partition |
| StaleLease.RunKeeps | cmd/phebs/t422_stale_control.go:303-515 | every interleaving keeps the milestone order, the single channel closes, the lease distinction and what each caller may conclude |
| StaleLease.StepKeeps | cmd/phebs/t422_stale_control.go:303-515 | one move reaches at most one milestone, undoes none, and reaches none after a failure |
| StaleLease.ReturnsMean | cmd/phebs/t422_stale_control.go:303-369 | the old worker gets lease-lost only after the requeue and the hit report; an accepted phase-seven authority follows a recovery under another lease |
| StaleLease.StaleControl.CaptureFinal | cmd/phebs/t422_stale_control.go:106-139 | captures once in phase six and accepts only the same authority in phase seven after the recovery report |
| StaleLease.StaleControl.ConfirmFinal | cmd/phebs/t422_stale_control.go:179-199 | the report tail confirms the captured authority once |
| StaleLease.StaleControl.Claim | cmd/phebs/t422_stale_control.go:312-329 | the first claim is remembered; a later one must be the same chunk under another lease after the hit report |
| StaleLease.StaleControl.Reclaim | cmd/phebs/t422_stale_control.go:345-351 | one reclaim, only after the requeue was seen |
| StaleLease.StaleControl.Transition | cmd/phebs/t422_stale_control.go:377-428 | the reaper's three callbacks, each against the state it needs |
| StaleLease.StaleControl.FinishReport | cmd/phebs/t422_stale_control.go:502-515 | a barrier is released once, by its own reader, while its callback lives |
| CheckpointRecovery.CheckRoots | cmd/phebs/t422_checkpoint_recovery.go:69-83 | accepts exactly strictly ordered, complete roots that name the selected domain with its plan |
| CheckpointRecovery.MatchedRecovery | cmd/phebs/t422_checkpoint_recovery.go:269-299 | a matching recovery completed the selected chunk unleased under the event's token, with the carried root or, opted in and active, none |
| CheckpointRecovery.RunKeeps | cmd/phebs/t422_checkpoint_recovery.go:186-459 | every interleaving keeps the chain of proofs, the single closes, the one rendezvous and the failure latch |
| CheckpointRecovery.AcceptedMeans | cmd/phebs/t422_checkpoint_recovery.go:363-394 | an accepted final authority rests on a complete settlement (when opted in), one reported recovery under another lease, and both earlier callbacks |
| CheckpointRecovery.RefusalIsFinal | cmd/phebs/t422_checkpoint_recovery_diagnostics.go:165-194 | after the first refusal nothing further is credited and its record never changes |
| CheckpointRecovery.SiblingOrTarget | cmd/phebs/t422_checkpoint_recovery.go:154-182 | a well-formed completion in the schedule is ignored exactly when it is of another offset, and then changes nothing |
| CheckpointRecovery.RecoveryControl.Transition | cmd/phebs/t422_checkpoint_recovery.go:199-232 | the three callbacks against the state they need |
| CheckpointRecovery.RecoveryControl.Meet | cmd/phebs/t422_checkpoint_recovery.go:242-247 | the ready channel closes only once the requeue was seen |
| CheckpointRecovery.RecoveryControl.FinishReport | cmd/phebs/t422_checkpoint_recovery_diagnostics.go:198-211 | the release predicate of the recovery report |
| CheckpointRecovery.RecoveryControl.Settle | cmd/phebs/t422_checkpoint_recovery.go:445-456 | only a complete settlement sets the proof |
| CheckpointRecovery.RecoveryControl.FinishFinal | cmd/phebs/t422_checkpoint_recovery.go:382-393 | one final authority, equal to what the parent carried, after the report |
| CheckpointRecovery.RecoveryControl.Refuse | cmd/phebs/t422_checkpoint_recovery_diagnostics.go:165-182 | only the first refusal records its snapshot |
| Registers.SeenTwice | cmd/phebs/t421_final_authority.go:772-835 | a register that held a value before and after an instant, and never returned to a value it left, held it then |
| Registers.RepeatHides | cmd/phebs/t421_final_authority.go:772-835 | without that condition two equal reads do not show what was held between them |
| FinalAuthority.OneInstant | cmd/phebs/t421_final_authority.go:209-438 | two passes that saw every claim mean one instant at which all of them held, if no claimed register repeated a value |
| FinalAuthority.Reader.Read | cmd/phebs/t421_final_authority.go:209-438 | a successful read's parts name each other and its relationship's postings compose its projections; unless a register it claims repeated a value there is one instant at which repository, selector, state, activation, catalog, observation, candidate, every domain, relationship and caller held them |
| FinalAuthority.Reader.Collect | cmd/phebs/t421_final_authority.go:215-302 | everything collected was seen during the collection and names the rest as required |
| FinalAuthority.Reader.Confirm | cmd/phebs/t421_final_authority.go:772-835 | everything claimed was seen again during the confirmation |
| FinalAuthority.Reader.OpenComponents | cmd/phebs/t421_final_authority.go:627-683 | the postings a relationship names compose its projections exactly, by the component inventory's own decision |
| FinalAuthority.Reader.ReadExtraction | cmd/phebs/t421_final_authority.go:473-520 | one snapshot per domain in policy order, as the source's inventories are, each of a plan that matches observation and candidate |
| FinalAuthority.Reader.ConfirmExtraction | cmd/phebs/t421_final_authority.go:785-792 | every domain authority is seen again |
| FinalAuthority.Reader.AuthorizedRepository | cmd/phebs/t421_final_authority.go:538-552 | a visible repository of the right name that is not being deleted |
| FinalAuthority.Reader.SelectedState | cmd/phebs/t421_final_authority.go:554-579 | the state the v3 selector names |
| FinalAuthority.Cache.Prepare | cmd/phebs/t421_final_source.go:41-90 | a hit answers what deriving again would; a miss leaves exactly that to commit |
| FinalAuthority.CommitCaches | cmd/phebs/t421_final_authority.go:440-471 | both caches are filled or, cancelled, neither |
| ComponentInventory.Composition | cmd/phebs/t421_final_authority.go:627-683 | succeeds exactly when every projection is valid and the multiset of projections equals that of RPC and Kafka posting identities |
| ComponentInventory.KeysOrder | cmd/phebs/t421_final_authority.go:732-748 | the order of postings does not matter |
| ComponentInventory.Inventory.Build | cmd/phebs/t421_final_authority.go:695-710 | counts every projection, or refuses an invalid one |
| ComponentInventory.Inventory.Take | cmd/phebs/t421_final_authority.go:712-723 | uses up one expected identity or refuses and changes nothing |
| ComponentInventory.Inventory.TakeAll | cmd/phebs/t421_final_authority.go:655-682 | succeeds exactly when all identities are expected, and leaves the rest |
| ComponentInventory.Inventory.Complete | cmd/phebs/t421_final_authority.go:725-730 | holds exactly when nothing is left |
| TailReadiness.ReadyRead | cmd/phebs/t421_tail_readiness.go:32-127 | what a ready answer read, before any assumption about other writers |
| TailReadiness.ReadyHolds | cmd/phebs/t421_tail_readiness.go:32-127 | ready means, unless pointer or selector repeated a value, that the published pointer named the selected generation and root for a whole span inside which the caller was current |
| TailReadiness.ArchiveReady | cmd/phebs/t422_archive_tail.go:59-163 | an archive is ready only between two readings of one idle schedule, with a catalog pointer and state that held together |
| TailReadiness.MissingRead | cmd/phebs/t421_tail_readiness.go:129-191 | absent bytes are an error exactly when generation or namespace were missing and the pointer read after them found the same pointer |
| TailReadiness.RetirementIsPending | cmd/phebs/t421_tail_readiness.go:161-191 | if retirement keeps what the published pointer names, an error for absent bytes means the published pointer left and came back |
| TailReadiness.GoneIsPending | cmd/phebs/t421_tail_readiness.go:129-191 | bytes found missing are a wait whenever the pointer can be read and did not leave and return |
| TailReadiness.ReturnIsError | cmd/phebs/t421_tail_readiness.go:161-191 | such a return can make the poll an error, so the condition is needed |
| TailReadiness.DomainsNeverMissing | cmd/phebs/t422_archive_tail.go:181-197 | no domain check of the archive yields a missing-generation error |
| MarkerControl.OnlyContinuation | cmd/phebs/t422_marker_control.go:431-447 | accepts exactly the unary chains that end in the continuation |
| MarkerControl.ChainHasOneLeaf | cmd/phebs/t422_marker_control.go:429-447 | such a chain carries the continuation and no other error |
| MarkerControl.RunKeeps | cmd/phebs/t422_marker_control.go:110-372 | every interleaving keeps the stage order, single closes, fence ownership and one advance |
| MarkerControl.StepKeeps | cmd/phebs/t422_marker_control.go:110-372 | a move goes to the next stage or stays, and nothing advances after a failure |
| MarkerControl.SuccessIsCompletion | cmd/phebs/t422_marker_control.go:110-190 | a call succeeds exactly when it is the one that left Armed and the stage is Complete; both reports and the recovery precede the single advance, which never begins under the fence |
| MarkerControl.LateCallFails | cmd/phebs/t422_marker_control.go:115-119 | a later call fails although the stage is Complete |
| MarkerControl.Marker.Handle | cmd/phebs/t422_marker_control.go:115-121 | only the Armed stage admits a handler |
| MarkerControl.Marker.MarkerInstalled | cmd/phebs/t422_marker_control.go:196-205 | only the handler's own chunk reaches Hit |
| MarkerControl.Marker.RecoverSelected | cmd/phebs/t422_marker_control.go:224-234 | only the installed target reaches Recovered |
| MarkerControl.Marker.ClaimRead | cmd/phebs/t422_marker_control.go:324-341 | one reader per barrier, the recovered one after the hit report |
| MarkerControl.Marker.FinishReport | cmd/phebs/t422_marker_control.go:343-355 | a report counts only in its own stage |
| CheckpointTerminal.FooterMeans | cmd/phebs/t422_terminal_footer.go:48-89 | at most one footer, and by then the hook had parked, its hit was reported, its heartbeat stopped and the phase had exactly one reuse record of its final lanes; a matched hook only ever fails |
| CheckpointTerminal.RunKeeps | cmd/phebs/t422_checkpoint_control.go:211-352 | every interleaving of hook, readers, terminal and reports keeps those facts |
| CheckpointTerminal.ScriptKeeps | cmd/phebs/t422_terminal_footer.go:70-77 | the terminal's own report ends refused or with the phase complete |
| CheckpointTerminal.Checkpoint.Park | cmd/phebs/t422_checkpoint_control.go:223-230 | one hook parks, once |
| CheckpointTerminal.Checkpoint.FinishHit | cmd/phebs/t422_checkpoint_control.go:297-311 | the hit is reported once, while parked, with its own token |
| CheckpointTerminal.Checkpoint.MakeTerminal | cmd/phebs/t422_checkpoint_control.go:332-337 | terminal once, after the report, while parked |
| ReuseReports.Record | cmd/phebs/t422_reuse_reports.go:251-273 | accepts exactly the encodable lanes of a bound process, and the record reads back as producer, phase and lanes |
| ReuseReports.LanesEncode | cmd/phebs/t422_reuse_reports.go:107-129 | in every run source and search agree, the encoder accepts the lanes, and a complete phase wrote exactly one record of them |
| ReuseReports.StepKeeps | cmd/phebs/t422_reuse_reports.go:158-249 | lanes are frozen while a report is pending and for good once complete, unless that report aborts |
| ReuseReports.ReuseControl.Observe | cmd/phebs/t422_reuse_reports.go:107-129 | decides the lanes only if none disagrees and the phase is open |
| ReuseReports.ReuseControl.BeginFinal | cmd/phebs/t422_reuse_reports.go:186-211 | started, skipped or invalid, exactly as phase 14 and the flags say |
| ReuseReports.ReuseControl.CompleteFinal | cmd/phebs/t422_reuse_reports.go:245-247 | pending gives way to complete |
| ExactReads.HeaderIsCanonical | cmd/phebs/t421_exact_reads.go:467-476 | a header names an ordinal exactly when it is that ordinal's canonical text within the maximum |
| ExactReads.AdmittedInOrder | cmd/phebs/t421_exact_reads.go:456-486 | admitted ordinals are 1, 2, 3, ...; commits need whole bodies and clean ledgers; one failure is told; idle means every continuation has run |
| ExactReads.AdmittedAlone | cmd/phebs/t421_exact_reads.go:479-486 | an admission finds nothing active, no failure and no continuation outstanding |
| ExactReads.FailureCloses | cmd/phebs/t421_exact_reads.go:982-1001 | after the first failure none is admitted and only the active request and the latching refusal may report |
| ExactReads.ComposedIsMade | cmd/phebs/t421_exact_reads.go:379-396 | whatever controls are asked, all continuations made are run exactly when none that drops its predecessors was reached with some |
| ExactReads.ReadRunsMade | cmd/phebs/t421_exact_reads.go:379-396 | in every epoch a final read runs exactly the continuations made unless the checkpoint or reuse control is the first to refuse, after an earlier one was made |
| ExactReads.RefusalLosesRetention | cmd/phebs/t422_reuse_reports.go:158-166 | that happens: the reuse control refuses after the retention control made its continuation |
| ExactReads.Accounting.Admit | cmd/phebs/t421_exact_reads.go:456-486 | the next ordinal, alone and before any failure |
| ExactReads.Accounting.Release | cmd/phebs/t421_exact_reads.go:982-993 | the request ends and the first error is told |
| ExactReads.Accounting.MarkFailed | cmd/phebs/t421_exact_reads.go:995-1001 | true for the first failure only |
| JsonKeys.AcceptsExactly | cmd/phebs/t421_exact_reads.go:811-858 | the checker accepts exactly the texts of one value without repeated member names and with every node at depth sixteen or less |
| JsonKeys.ValueSound | cmd/phebs/t421_exact_reads.go:816-858 | what a successful check consumed is the text of one such value, and nothing more |
| JsonKeys.ValueComplete | cmd/phebs/t421_exact_reads.go:816-858 | every such value is accepted wherever a value may stand, and exactly its text is consumed |
| JsonKeys.Decoder.ValueKeysUnique | cmd/phebs/t421_exact_reads.go:816-858 | the recursion over a moving decoder computes the same and terminates |
| JsonKeys.CheckStream | cmd/phebs/t421_exact_reads.go:811-814 | the decision for a whole stream |
| TypedRuntime.RunKeeps | cmd/phebs/serve_typed_runtime.go:97-179 | every interleaving of settlements, ticks and admissions keeps the flags standing for unresolved failures |
| TypedRuntime.LostOnlyByLeaving | cmd/phebs/serve_typed_runtime.go:146-179 | a failure is lost only after the loop left, which needs a failed owner entry |
| TypedRuntime.FailedEntryLoses | cmd/phebs/serve_typed_runtime.go:162-168 | a failed entry loses a failure exactly when one is unresolved and none arrived since pending was withdrawn |
| TypedRuntime.EntryFailureLoses | cmd/phebs/serve_typed_runtime.go:162-168 | that happens: a concrete run |
| TypedRuntime.AdmittedIsClean | cmd/phebs/serve_typed_runtime.go:100-105 | an admission passes over failures it saw exactly when no reconcile returned nil between its two loads; the loop had then exited or a recovery ended without success in between |
| TypedRuntime.PassingOver | cmd/phebs/serve_typed_runtime.go:100-105 | at the second load: it passes exactly when recovering is down and no reconcile returned nil since a first load that saw failures |
| TypedRuntime.StraddlingLoads | cmd/phebs/serve_typed_runtime.go:100-105 | loads may straddle the end of a failed recovery although one flag was up throughout |
| TypedRuntime.StraddlingRun | cmd/phebs/serve_typed_runtime.go:97-179 | that happens in a run |
| TypedRuntime.TypedServe.Handle | cmd/phebs/serve_typed_runtime.go:100-105 | admitted exactly when neither flag is up |
| TypedRuntime.TypedServe.AfterSettlement | cmd/phebs/serve_typed_runtime.go:106-112 | a failed settlement raises pending |
| TypedRuntime.TypedServe.Recover | cmd/phebs/serve_typed_runtime.go:154-178 | one undisturbed tick keeps a failure pending unless the reconcile succeeded or the loop ended |
| WorkspaceReports.StreamKeeps | cmd/phebs/t422_workspace_reports.go:127-208 | whatever is called in whatever order, the stream stays pairs of begin and sample with one reopening at its place and at most one open or failed begin at the end, each slot within its budget |
| WorkspaceReports.ScanCounts | cmd/phebs/t422_workspace_reports.go:127-208 | what that language means in numbers of each kind of record |
| WorkspaceReports.RecordsReadBack | cmd/phebs/t422_workspace_reports.go:105-125 | every record ever written decodes back to its 64-bit values |
| WorkspaceReports.TextBack | cmd/phebs/t422_workspace_reports.go:112-125 | a record is read back from its text |
| WorkspaceReports.WriteHex | cmd/phebs/t422_workspace_reports.go:105-110 | fills exactly its digits |
| WorkspaceReports.Encode | cmd/phebs/t422_workspace_reports.go:112-125 | the buffer holds the record's text |
| WorkspaceReports.Reporter.Admits | cmd/phebs/t422_workspace_reports.go:127-143 | a sample may begin |
| WorkspaceReports.Reporter.BeginSample | cmd/phebs/t422_workspace_reports.go:127-147 | one begun record, or the error latch |
| WorkspaceReports.Reporter.CompleteSample | cmd/phebs/t422_workspace_reports.go:152-164 | the sample of the pending begin |
| WorkspaceReports.Reporter.FailSample | cmd/phebs/t422_workspace_reports.go:168-176 | at most one failure record, then the latch |
| WorkspaceReports.Reporter.PhysicalReopenReady | cmd/phebs/t422_workspace_reports.go:178-193 | the reopening after the fifth pair |
| WorkspaceReports.Reporter.MarkerReopenReady | cmd/phebs/t422_workspace_reports.go:195-208 | the reopening after the first pair |
| WorkspaceSequence.NeverOverBudget | cmd/phebs/t422_workspace_reports.go:31-64 | no sample the control admits is refused by a budget, in any epoch |
| WorkspaceSequence.AdmittedIsAccepted | cmd/phebs/t422_workspace_bytes.go:53-188 | in every run the reports accept all that is admitted: samples are within budget and reopenings are due |
| WorkspaceSequence.OneOrder | cmd/phebs/t422_workspace_command.go:22-96 | every failure-free run passes its epoch's points and commands in one order, up to the park and finish of phase eight |
| WorkspaceSequence.Lifecycle.BeginSample | cmd/phebs/t422_workspace_command.go:115-121 | a sample begins only at the automaton's position |
| WorkspaceSequence.Lifecycle.EndSample | cmd/phebs/t422_workspace_command.go:140-148 | the position moves by one if it is still the same |
| WorkspaceSequence.Lifecycle.BeginCommand | cmd/phebs/t422_lifecycle_control.go:221-237 | a command begins only where it is expected |
| WorkspaceSequence.Lifecycle.CompleteCommand | cmd/phebs/t422_lifecycle_control.go:304-320 | the step moves by one if it is still expected |
| WorkspaceSequence.TotalsMean | cmd/phebs/t422_lifecycle_control.go:243-302 | without a fault the totals are those of all ticks, and there is a fault exactly for an invalid tick, one undelivered or beyond an allowance, or a sum beyond 64 bits |
| WorkspaceSequence.TurnPrefix.ObserveOwner | cmd/phebs/t422_lifecycle_control.go:243-302 | one returned tick is recorded before anything can fail; its sink and its caps are checked after |
| Installation.VerifyBatch | cmd/phebs/serve_typed_installation.go:265-303 | verified or mismatch exactly as the listed rows use up the batch |
| Installation.ConsumedMatches | cmd/phebs/serve_typed_installation.go:278-302 | rows that use up the batch differ in name, match their files and cover all of them |
| Installation.MatchingConsumes | cmd/phebs/serve_typed_installation.go:278-302 | and such rows always use it up |
| Installation.VerifySource | cmd/phebs/serve_typed_installation.go:262-305 | every batch of at most 64 is verified |
| Installation.EveryFileVerified | cmd/phebs/serve_typed_installation.go:236-306 | every selected file has a commit row with its mode and contents |
| Installation.Registry.CheckOne | cmd/phebs/serve_typed_installation.go:206-221 | installed, next in line, or refused |
| Installation.Registry.CheckAll | cmd/phebs/serve_typed_installation.go:192-222 | withdraws exactly what its source read says is no longer current, checks the rest and writes nothing |
| Installation.Registry.WriteAll | cmd/phebs/serve_typed_installation.go:224-229 | writes pending successors one by one and nothing else |
| Installation.Registry.Install | cmd/phebs/serve_typed_installation.go:187-231 | nothing is written unless every still-current repository proved its sources and epoch; a completed run leaves all of them installed |
| Installation.RunOnce | cmd/phebs/serve_typed_installation.go:173-231 | one process over a mix of installed and predecessor epochs keeps the mix, however far it gets |
| Installation.Restarts | cmd/phebs/serve_typed_installation.go:173-231 | any number of such runs rewrite nothing installed and touch nothing else; when the last completes, every repository it found current is installed; it refuses only sources that do not verify |
| Installation.MixedIsNotRefused | cmd/phebs/serve_typed_installation.go:211-219 | a mix of installed and predecessor epochs is refused only for sources that do not verify |
| AnalysisUnit.HasSelectedAncestor | internal/analysisunit/analysisunit.go:147-156 | the walk up finds an ancestor exactly when one of the selected paths is one, and ends |
| AnalysisUnit.Canonical | internal/analysisunit/analysisunit.go:104-171 | accepts exactly the scopes whose paths are valid, bounded, distinct and pairwise no segment ancestors, and yields their identity |
| AnalysisUnit.CanonicalPaths | internal/analysisunit/analysisunit.go:314-328 | the sorted list, if all its paths are valid |
| AnalysisUnit.CollectPaths | internal/analysisunit/analysisunit.go:128-140 | finds a duplicate or returns the byte count and the set |
| AnalysisUnit.OrderIsIrrelevant | internal/analysisunit/analysisunit.go:104-171 | reordering either list changes neither acceptance nor identity |
| AnalysisUnit.MakeState | internal/analysisunit/analysisunit.go:184-210 | a state exactly for acceptable scopes |
| AnalysisUnit.Validate | internal/analysisunit/analysisunit.go:212-247 | accepts no state, and exactly the states some acceptable scope of the repository commits, or their legacy variant without a typed input |
| AnalysisUnit.ValidIsCommitted | internal/analysisunit/analysisunit.go:212-247 | rebuilding a state from its own lists loses nothing |

## Left out

- ServiceRuntime.Controller.SelectLocked: a commit that becomes visible only after the confirming read is not modelled; a swap has committed, or never will, when it returns.
- ServiceRuntime.Controller.Serve: the controller is the only writer of selectors and its lock covers each operation, so no other writer moves a selector within one; taking and losing the shared mutation fence is not modelled.
- ServiceRuntime.Controller.CompleteV3: the reconcilers, the search package and the checks of the recovery package are nondeterministic results; paging through continuations is one result.
- ServiceRuntime.Controller.ReconcileV2Search: which search generation the index publishes, and whether it needs activation, are nondeterministic.
- FinalAuthority.Reader.Read: claims about a register are those compared by the code, so of a repository its name, commit and deletion; immutable content is named by its digest; response encoding, receipts, the derived projections, the schema and time fields of a selector and the optional observation fields are left out.
- FinalAuthority.CommitCaches: the two cache locks and their order.
- TailReadiness.ReadyHolds: the caller is read once, so its currency is known at one instant; the byte form of the answer is left out.
- CheckpointTerminal.FooterMeans: arming, capturing and confirming have the shape proved in StaleLease and are one step here; the footer's bytes and the pipe checks are left out, and a footer counts when its write is attempted.
- StaleLease.ReturnsMean: a preparation's own I/O is one nondeterministic result; deadlines are a cancel step.
- CheckpointRecovery.AcceptedMeans: the remaining digest and format checks of the parent's input, which no later step depends on, and the deadline bounds of callbacks.
- ExactReads.AdmittedInOrder: headers, principals, routes and limit selection are one boolean; a report that the sink refuses is not counted as made.
- JsonKeys.AcceptsExactly: the text of scalars and strings; the decoder's tokens begin at lexemes, and equal strings are equal numbers.
- WorkspaceSequence.OneOrder: phases and callbacks come from the process's own state, so phases only move forward and callbacks are delivered once, the physical one only after the warm-start one it is configured with.
- WorkspaceReports.StreamKeeps: a record the sink takes only in part ends the stream and is not part of it.
- Installation.Registry.Install: reading and decoding manifests, inventories and tree output; only this program writes intents, while sources may move at any time; deadlines are failures.
- Installation.VerifyBatch: the size limit passed to a blob read is part of whether it can be read.
- AnalysisUnit.Canonical: repository and unit names carry whether their own validation accepts them; the JSON bytes are their injective content, and path.Clean is what the component rules already say; bytes and characters coincide.
- ComponentInventory.Composition: opening the generations and the optional class counters.
- HTTP handlers, authentication, flags, configuration, logging text and process wiring carry no invariant beyond call order.
- Activation, retention, selector-cleanup and search-warm controls repeat the barrier and step shapes proved here.
- The other fixed-width metric emitters are straight-line encoders like the two records modelled.
- First-failure diagnostics beyond the latch are advisory text.

# ParallelPlay kernel: a verified model

ParallelPlay is an event-sourced kernel: pure deciders turn a state, a command and a time into events, `evolve`
folds events into a projection, and the log is the only truth. This project models its safety-critical parts in
Dafny and proves what they keep over whole runs.

| part | files | main results |
|---|---|---|
| Advisor authority machine | `Advisor*.dfy` | lost authority is final, promotion on merit, counted and audited resolutions, fenced leases, corpus revisions, the evaluation arithmetic, and a run that earns authority |
| Outbound authority log | `Outbound*.dfy` | every written log is safe at every position, replays, and fails safe |
| GitHub delivery | `GitHub*.dfy` | created at most once per effect key, with a crash allowed anywhere |
| Canonical JSON and differences | `Json.dfy`, `Canonical*.dfy`, `Difference.dfy`, `SerializedOrder.dfy` | a true canonical form; a sound and complete first difference; exactly when insertion order is forgotten |
| Outcome packets | `Outcome*.dfy` | build, record, verify without a complaint; evidence sound exactly when no receipt is undermined; deriving is idempotent; admissions are freed |
| Driver sessions | `DriverSession.dfy`, `Session*.dfy`, `LiveSession.dfy`, `Generic*.dfy` | consistent streams under every interleaving; exactly when a reader survives restarts; exactly when the log interpreter is stable |
| Projection | `Portfolio*.dfy`, `Archive*.dfy`, `AdvisorDigests.dfy`, `TableReader.dfy`, `ProgramColumns.dfy`, `JobRows.dfy` | which digest checks can fire on a replayed log; write-then-read is the identity |

To check the whole project: `dafny verify dfyconfig.toml`.

Conventions. A digest is a free datatype constructor over its content, so equal digests mean equal content; a digest
nobody computed is `Foreign`. A deterministic id is a free constructor over its seed. Instants are integers. A
JavaScript `Map` is a `map`; where the code walks it and the order could matter it is a `seq`, elsewhere the walk
follows one listing per key set of which nothing is known but that each key occurs once. A call that throws is a `Result`. Commands of the
rest of the kernel are environment steps that may rewrite everything but the advisor maps.

Shape of the advisor proof: `AdvisorSoundness`, `AdvisorGrants` and `AdvisorFacts` show once per command that its
accepted events keep the authority invariant and have only the allowed effect; `AdvisorKernel.RunLinked` lifts this to
every run; `AdvisorAuthority`, `AdvisorLeases` and `AdvisorCorpora` then reason about logs alone. The link no branch of the code checks
is `ReportsBound`: a stored report names a known policy and the very corpus revision that policy is bound to, which is
why the contamination check made at promotion protects the right policy.

## Model

| member | source | states |
|---|---|---|
| AdvisorAuthority.AuthorityIsSafeInEveryRun | packages/kernel/src/advisor.ts:740-2411 | clean standing, final loss, exact counting, promotion on merit, early audits and settled audits (the rows below), for every run from any start under any commands at any times |
| AdvisorAuthority.StandingAlwaysClean | packages/kernel/src/advisor.ts:919-979 | no active policy is bound to a contaminated corpus revision, and every policy with a recorded incident or a damning audit finding is suspended or superseded |
| AdvisorAuthority.LostAuthorityIsFinal | packages/kernel/src/advisor.ts:1956-2057 | after a suspension, incident, serious or harmful finding, or contamination of its corpus (even before its approval) no later batch records a resolution under the policy |
| AdvisorAuthority.NoResolutionAfterLoss | packages/kernel/src/advisor.ts:1960-1969 | the same finality for one policy and two positions of a log |
| AdvisorAuthority.AuthorityAlwaysCounted | packages/kernel/src/model.ts:2458-2516 | each policy revision is promoted at most once, is active only after that, and its counter is the number of its resolution events and at most 200 |
| AdvisorAuthority.Counted | packages/kernel/src/model.ts:2458-2516 | the counter and the number of promotions agree with the log at every position |
| AdvisorAuthority.PromotionsNeedMerit | packages/kernel/src/advisor.ts:1802-1836 | whenever a policy is promoted a stored report on it meets the evidence floor: sizes, coverage, no disagreement, no invalid recent output, no contamination |
| AdvisorAuthority.FirstResolutionsAudited | packages/kernel/src/advisor.ts:472-479 | each of the first twenty resolutions of a policy carries an audit selection written by the same command |
| AdvisorAuthority.ResolutionsAwaitDueAudits | packages/kernel/src/advisor.ts:2035-2058 | at each resolution every audit of its policy already due was completed, or selected again under its id, in between; no assumption on ids |
| AdvisorAuthority.PendingOrCompleted | packages/kernel/src/model.ts:2517-2528 | a selected audit stays pending, exactly as selected, until an event completes it or selects it again |
| AdvisorAuthority.FreshResolutionsAwaitCompletion | packages/kernel/src/advisor.ts:2035-2058 | with fresh resolution ids every audit already due was completed before each resolution under its policy |
| AdvisorAuthority.RearmingReusesId | packages/kernel/src/advisor.ts:2261-2289 | an audit is selected again only where a resolution id was recorded twice |
| AdvisorRearmed.ReusedIdPassesDueDate | packages/kernel/src/advisor.ts:2035-2058 | one run from the empty kernel: a resolution id is reused on day six, which selects its pending audit anew, and a resolution on day eight passes the first due date with the audit never completed |
| AdvisorPromoted.AuthorityIsAttainable | packages/kernel/src/advisor.ts:1393-1955 | some run from the empty kernel (150 cases, 100 answers, evaluation, promotion packet, promotion) ends with an active policy, so the safety results are not vacuous |
| AdvisorMerit.EvaluationPasses | packages/kernel/src/advisor.ts:1393-1544 | the evaluation of that run counts 50 calibration, 100 agreeing holdout, 100 adversarial and 50 agreeing recent cases and lists no blocker |
| AdvisorKernel.RunLinked | packages/kernel/src/sqlite-kernel.ts:393-510 | every run keeps a log in which each batch was decided in a state satisfying the invariant and explains the next state; rejected commands and throwing folds change nothing |
| AdvisorFacts.DecideFacts | packages/kernel/src/advisor.ts:740-2411 | for every command: accepted events that fold keep the authority invariant, move policies only as allowed, complete or select at most one audit, approve a corpus revision only as the successor of the current one, and carry at most one lease event, allowed by the stored invocation |
| AdvisorFacts.ActedAudits | packages/kernel/src/advisor.ts:2202-2289 | a resolve that acts writes the audit it selected and no other |
| AdvisorFacts.LeaseFold | packages/kernel/src/model.ts:2259-2367 | an allowed lease event changes only its own invocation, to the status, attempt and token it says |
| AdvisorSoundness.ContaminationSound | packages/kernel/src/advisor.ts:919-979 | recording a contamination suspends every active policy on that corpus revision in the same batch and never throws while folding |
| AdvisorSoundness.SubjectSound | packages/kernel/src/advisor.ts:746-793 | approving a new subject revision suspends the active policies of the prior one and grants nothing |
| AdvisorSoundness.AuditSound | packages/kernel/src/advisor.ts:2297-2373 | a serious or harmful finding suspends the policy in the same batch whatever its status was; the packet opened with it touches no authority |
| AdvisorSoundness.PolicySound | packages/kernel/src/advisor.ts:1334-1392 | a new policy revision enters in shadow and retires the one it replaces |
| AdvisorSoundness.EvaluationSound | packages/kernel/src/advisor.ts:1393-1544 | a compiled report is bound to a known policy and that policy's corpus |
| AdvisorSoundness.ExplicitSuspendSound | packages/kernel/src/advisor.ts:2374-2411 | an explicit suspension keeps the invariant and folds |
| AdvisorSoundness.SuspendEachFold | packages/kernel/src/advisor.ts:481-532 | a loop of suspensions never throws and suspends exactly the named policies, with incidents only for them |
| AdvisorGrants.PromotableMayPromote | packages/kernel/src/advisor.ts:1802-1836 | the checks of a promotion imply the policy is in shadow and its own corpus is clean |
| AdvisorGrants.PromoteSound | packages/kernel/src/advisor.ts:1771-1955 | a promotion keeps the invariant and activates exactly one shadow policy |
| AdvisorGrants.ResolveCases | packages/kernel/src/advisor.ts:1956-2057 | an accepted resolve either suspends its policy or acts under an active, unexhausted policy with no audit overdue |
| AdvisorGrants.ResolveSound | packages/kernel/src/advisor.ts:1956-2296 | a resolve keeps the invariant and resolves at most once |
| AdvisorEvolve.PartsFold | packages/kernel/src/model.ts:2200-2539 | the parts of the projection fold independently of each other |
| AdvisorResolution.ResolutionIsDetermined | packages/kernel/src/advisor.ts:2058-2127 | in one state, two resolves of a packet under a policy that act pick the same option whatever they recommend; all options of the revision the policy matched are allowlisted; a priority change is never p0 and lies in the allowed set |
| AdvisorResolution.RevisionsStayKeyed | packages/kernel/src/model.ts:1561-1575 | in every run packet revisions stay under their own ids, if the rest of the kernel stores them so |
| AdvisorResolution.DamningAuditPages | packages/kernel/src/advisor.ts:534-738 | a serious or harmful finding on a resolution whose action is on record puts a reserved, safety-critical packet before the operator in the same batch |
| AdvisorResolution.IncidentsNeedTheOperator | packages/kernel/src/advisor.ts:2058-2127 | no policy, whatever it matches, can resolve the packet of a safety incident |
| AdvisorResolution.OnlyOption | packages/kernel/src/advisor.ts:399-426 | a matcher that accepts exactly one option leaves no choice |
| AdvisorResolution.ChosenIsPermitted | packages/kernel/src/advisor.ts:165-282 | a chosen option belongs to the current packet revision, all of whose options pass the allowlist |
| AdvisorLeases.LeasesAreFencedInEveryRun | packages/kernel/src/advisor.ts:1055-1226 | counted tokens, fencing, final ends, disjoint leases, punctual successes and patient retries (the rows below), for every run and every invocation |
| AdvisorLeases.TokensCountAcquisitions | packages/kernel/src/advisor.ts:1055-1095 | token = attempt = number of acquisitions, and no invocation has failed more than three times despite unbounded reclaims |
| AdvisorLeases.OnlyNewestTokenAccepted | packages/kernel/src/advisor.ts:1096-1200 | acquisitions hand out tokens 1, 2, 3, ...; completions and failures are accepted with the newest token only |
| AdvisorLeases.FinishedIsFinal | packages/kernel/src/advisor.ts:1201-1226 | after success, cancellation or final failure no lease event for the invocation ever follows |
| AdvisorLeases.LeasesNeverOverlap | packages/kernel/src/advisor.ts:1063-1073 | by any later acquisition the earlier lease has expired or its holder has reported a failure in between |
| AdvisorLeases.LeaseFate | packages/kernel/src/model.ts:2274-2367 | until the next acquisition a lease runs on, is given back by a failure with its token, or the invocation is over |
| AdvisorLeases.SuccessInTime | packages/kernel/src/advisor.ts:1096-1112 | every success answers an earlier acquisition by the same owner with the same token whose lease has not expired |
| AdvisorLeases.RetryWaits | packages/kernel/src/advisor.ts:1166-1200 | after a retryable failure no acquisition comes before the delay of that attempt (one or five seconds) has passed |
| AdvisorCorpora.CorporaAreChainedInEveryRun | packages/kernel/src/advisor.ts:857-918 | in every reachable state each corpus has exactly one current revision, and it is the highest of 1..n |
| AdvisorCorpora.ApprovalChains | packages/kernel/src/model.ts:2226-2247 | an approval supersedes exactly the current revision and keeps the numbers unshared and gapless |
| AdvisorEvaluation.EvaluateIsHonest | packages/kernel/src/advisor.ts:1466-1497 | a compiled report without blockers meets the evidence floor in its own numbers |
| AdvisorScoring.FloorClearsWilson | packages/kernel/src/advisor.ts:1473-1475 | a report that meets the evidence floor is above the Wilson floor of 0.95 too |
| AdvisorScoring.EvaluationForCases | packages/kernel/src/advisor.ts:311-374 | the loop over the cases, looking up the newest answer of each, yields the score of the verdicts; eligible = recommended + abstained + invalid, recommended = agreed + serious; coverage below 0.8 is decided exactly |
| AdvisorScoring.NewestAnswer | packages/kernel/src/advisor.ts:330-353 | filter, stable sort and find give the output of the newest completed invocation for a case |
| AdvisorScoring.ReportsAddUp | packages/kernel/src/advisor.ts:1458-1459 | the scores of every compiled report add up |
| AdvisorScoring.WilsonInRange | packages/kernel/src/advisor.ts:283-291 | the bound lies between 0 and k/n, so the clamp at 0 never engages |
| AdvisorScoring.WilsonGrows | packages/kernel/src/advisor.ts:283-291 | the bound strictly grows with the number of successes |
| AdvisorScoring.BelowWilsonIsExact | packages/kernel/src/advisor.ts:1473-1475 | the comparison without a square root is exactly "the bound is below the threshold" |
| AdvisorScoring.WilsonNeverAlone | packages/kernel/src/advisor.ts:1466-1487 | the Wilson blocker never appears without the serious-disagreement, holdout-size or holdout-coverage blocker |
| AdvisorDigests.ReplayedDigestsHold | packages/kernel/src/model.ts:2200-2539 | for every log that folds, with any events of the rest of the kernel in between, each record of the twelve advisor tables sits under its own id and matches its digest, invocations rewritten in place included |
| AdvisorDigests.RunDigestsHold | packages/kernel/src/sqlite-kernel.ts:393-510 | the same in every run of the kernel, with priority changes and policies drafted from proposals |
| AdvisorDigests.ReplayedReadsBack | packages/kernel/src/projections.ts:1137-1282 | for every log that folds and every row order, reading the advisor tables fires no digest check and gives back every record |
| OutboundRuns.RunsAreGood | packages/kernel/src/outbound-authority.ts:289-489 | every log written by any calls is safe at every position (promoted earlier, never suspended so far, unexpired, covered, inside the ceiling, key authorized once), replays without drift, and fails safe |
| OutboundRuns.AuthorizationsAreCovered | packages/kernel/src/outbound-authority.ts:357-397 | every authorization names a policy promoted earlier, not suspended at any earlier position, unexpired and covering action and target, inside the ceiling; its key is authorized nowhere else |
| OutboundRuns.ReauthorizingIsIdempotent | packages/kernel/src/outbound-authority.ts:367-376 | authorizing again appends nothing, and returns the first digest if and only if it is the first request and the last authorization, receipt or failure under the key is not a failure for good |
| OutboundRuns.FailedRunIsRefused | packages/kernel/src/outbound-authority.ts:367-376 | a run in which the call is refused: promote, authorize, fail for good |
| OutboundRuns.RecoveredRunSucceeds | packages/kernel/src/outbound-authority.ts:236-249 | the same run recovers: a retryable failure recorded on top makes the call succeed with the first digest |
| OutboundRuns.SuspensionIsAbsorbing | packages/kernel/src/outbound-authority.ts:340-356 | a suspended promotion stays suspended whatever is called afterwards |
| OutboundRuns.FirstReceiptIsKept | packages/kernel/src/outbound-authority.ts:399-436 | a delivered effect keeps its first receipt and its status for ever |
| OutboundRuns.FailureKeeps | packages/kernel/src/outbound-authority.ts:438-489 | a failure is recorded together with the suspension it calls for, so the fail-safe condition holds after it |
| OutboundSafety.SafeReplays | packages/kernel/src/outbound-authority.ts:172-266 | a log that is safe position by position replays, and the view says exactly what the log says |
| OutboundSafety.AuthorizedOnce | packages/kernel/src/outbound-authority.ts:367-376 | in a safe log an effect key names one request and one authorization |
| OutboundAuthority.ReplayEvents | packages/kernel/src/outbound-authority.ts:172-266 | the replay loop over two maps computes the specified view or the first drift error |
| OutboundAuthority.FindRevision | packages/kernel/src/outbound-authority.ts:311-318 | the search over promotions finds the one promotion of a policy revision, if any |
| OutboundAuthority.Authority.PromotePolicy | packages/kernel/src/outbound-authority.ts:289-338 | answers and appends as specified, keeps the log good, and the promotion returned is in the log |
| OutboundAuthority.Authority.SuspendPolicy | packages/kernel/src/outbound-authority.ts:340-355 | answers and appends as specified; on success the log holds the suspension |
| OutboundAuthority.Authority.AuthorizeEffect | packages/kernel/src/outbound-authority.ts:357-397 | answers and appends as specified; on success the log holds an authorization of that request with that digest |
| OutboundAuthority.Authority.RecordEffectReceipt | packages/kernel/src/outbound-authority.ts:399-436 | answers and appends as specified; on success the log holds that very receipt |
| OutboundAuthority.Authority.RecordEffectFailure | packages/kernel/src/outbound-authority.ts:438-489 | answers and appends as specified, failure and suspension together |
| GitHubDelivery.CreatedAtMostOnce | packages/adapter-github/src/index.ts:247-328 | in every run of deliveries and authority calls, a crash allowed at any point, in a world that keeps what was created: created at most once per effect key and only after the log held an authorization of that exact request |
| GitHubDelivery.VisibleRunsAreSound | packages/adapter-github/src/index.ts:247-328 | the same invariant at every position of a run in which created objects are at least still located by the observe step |
| GitHubDelivery.KeptIsVisible | packages/adapter-github/src/index.ts:376-583 | a world that still holds the created objects shows each of them to the observe step |
| GitHubDelivery.LostObjectIsCreatedAgain | packages/adapter-github/src/index.ts:269-293 | why the world has to keep them: an authorized request that is not observed is created by the next delivery that reaches the post, created before or not |
| GitHubDelivery.NotYetCreated | packages/adapter-github/src/index.ts:269-293 | an authorized request that was not observed has never been created under its key |
| GitHubDelivery.CreatedIsFound | packages/adapter-github/src/index.ts:640-722 | what the perform step creates is what the observe step looks for, and exactly what was asked |
| GitHubDelivery.LocatedIsObserved | packages/adapter-github/src/index.ts:376-583 | an object that stays where the observe step looks is never reported as not observed |
| GitHubDelivery.SuccessIsRecorded | packages/adapter-github/src/index.ts:304-312 | a receipt is handed out only when it stands in the authority log |
| GitHubAdapter.Adapter.Deliver | packages/adapter-github/src/index.ts:247-328 | the object performs the specified delivery step by step on the authority object and keeps the invariant |
| GitHubAdapter.Adapter.Catch | packages/adapter-github/src/index.ts:313-327 | the failure is recorded before the error is rethrown; a throwing record replaces the error |
| Canonical.NormalizeOrders | packages/kernel/src/canonical.ts:5-24 | normalizing succeeds exactly on plain values and then only puts keys in order |
| Canonical.NormalizeIsIdempotent | packages/kernel/src/canonical.ts:5-24 | normalizing keeps the meaning and is idempotent |
| CanonicalText.CanonicalForm | packages/kernel/src/canonical.ts:26-28 | the text exists exactly for plain values, and two texts are equal exactly when the values are equal up to key order and the sign of zero |
| CanonicalText.CanonicalFormWithoutNegativeZero | packages/kernel/src/canonical.ts:26-28 | without negative zeros the text decides equality up to key order exactly |
| CanonicalText.NegativeZeroPrintsAsZero | packages/kernel/src/canonical.ts:7-11 | the exception: 0 and -0 differ but print the same |
| CanonicalText.PrintReads | packages/kernel/src/canonical.ts:26-28 | JSON text, whatever follows it, can be read back in one way only |
| CanonicalText.EscapeReads | packages/kernel/src/canonical.ts:26-28 | string escaping, lone surrogates included, can be read back in one way only |
| Difference.DifferenceIsExact | packages/kernel/src/projections.ts:2507-2535 | no difference exactly when the trees are equal up to key order; otherwise exactly the one path at which they first differ in traversal order |
| Difference.FirstIsUnique | packages/kernel/src/projections.ts:2507-2535 | two trees have at most one first difference |
| SerializedOrder.DigestIgnoresInsertionOrder | packages/kernel/src/model.ts:2677-2834 | where different rows have different places in the collation, the text under the projection digest does not depend on the order in which any map was filled |
| SerializedOrder.OrderIgnoredExactly | packages/kernel/src/model.ts:2678-2679 | under any collation, ties included, the sorted rows of a map do not depend on the order in which it was filled if and only if rows whose ids tie are equal |
| OutcomeTheorems.BuildThenVerify | packages/kernel/src/outcome.ts:339-468 | after folding the derived events the verifier has no complaint about a recorded packet exactly when the revisions and dependency outcomes it names are there, for any evidence recorded by a log that undermined no receipt |
| OutcomeTheorems.DerivingIsIdempotent | packages/kernel/src/outcome.ts:245-329 | folding the derived events never throws, and deriving again over the same runs yields nothing |
| OutcomeTheorems.OutcomeFreesAdmission | packages/kernel/src/outcome.ts:300-325 | an active admission whose active leases are non-empty and share a token ends released with no active lease left |
| OutcomeEvidence.RecordingKeepsEvidence | packages/kernel/src/model.ts:1268-1330 | a recording keeps the evidence sound if and only if it does not put another digest under a manifest id some verification receipt rests on |
| OutcomeEvidence.AlwaysSoundExactly | packages/kernel/src/model.ts:2540-2610 | along a log that folds from no evidence, every record matches its digest at every position if and only if no step undermines a receipt |
| OutcomeEvidence.OnceIsNeverUndermined | packages/kernel/src/model.ts:1268-1278 | a log that records every manifest id once undermines nothing and leaves sound evidence |
| OutcomeVerified.BuildKept | packages/kernel/src/outcome.ts:42-243 | a packet is built from parts of the state that recording outcomes leaves alone |
| OutcomeVerified.PassApplies | packages/kernel/src/outcome.ts:245-329 | a whole pass folds; every run with events is recorded and older packets stay |
| OutcomeVerified.ReleaseStep | packages/kernel/src/model.ts:1872-1921 | a release frees exactly the admission and leases named |
| DriverSession.CheckBatch | packages/contracts/src/index.ts:279-302 | the refinement loop raises no issue exactly for consecutive sequences, at most one terminal event, none while running |
| DriverSession.EventsAfter | packages/driver-codex/src/index.ts:321-331 | in a numbered stream the filter is the suffix after the cursor |
| SessionRuns.StreamsAreConsistent | packages/driver-codex/src/index.ts:398-506 | under every interleaving of messages, handlers, cancel, close, timeout, resume, file writes and restarts sequences are 1..n, there is exactly one terminal event, with the status as outcome, iff the status is not running, and every batch meets the refinement |
| SessionRestarts.ReaderReassembles | packages/driver-claude/src/index.ts:325-335 | a reader that holds a prefix holds the whole stream after a read of at most 4096 events that need not wait |
| SessionRestarts.ReaderHoldsExactly | packages/driver-codex/src/index.ts:321-331 | a reader that passes its last sequence holds a prefix of the stream at every point of a run if and only if the process never dies while the reader holds more than the session file |
| SessionRestarts.LostArtifactMisleads | packages/driver-codex/src/index.ts:606-632 | a run that breaks it: an artifact event is read before the handler saves, the process dies, and its sequence number is given to another event |
| SessionRestarts.ReadsBetweenHandlersHold | packages/driver-codex/src/index.ts:508-533 | a reader that only reads between handlers holds a prefix of the stream and of the file through any restarts |
| SessionRestarts.RunsSave | packages/driver-codex/src/index.ts:508-533 | with no handler under way and no writing scheduled, the newest copy of the session is the session |
| SessionRestarts.RedeliveryAddsNothing | packages/driver-claude/src/index.ts:423-432 | a message received before adds no event, schedules no handler and changes no status, whatever the workspace holds by now, unless the process has since reloaded a copy from before the message |
| SessionRestarts.OverIsOver | packages/driver-codex/src/index.ts:493-506 | once a session is over, status, reason and completion time stay the same in every continuation, and without a restart the stream only grows, unless the process reloads a copy in which the session was still running |
| LiveSession.Live.EnterTerminal | packages/driver-codex/src/index.ts:493-506 | only the first call on a running session has an effect |
| LiveSession.Live.ReceiveMessage | packages/driver-codex/src/index.ts:398-449 | counts the message, drops it if seen, else schedules its effects |
| LiveSession.Live.AdvanceTask | packages/driver-codex/src/index.ts:484-506 | a waiting handler performs its next effect and keeps the stream consistent |
| LiveSession.Live.CancelSession | packages/driver-codex/src/index.ts:333-346 | a cancelled session is over; cancelling one that is over changes nothing |
| LiveSession.Live.CloseSession | packages/driver-codex/src/index.ts:375-383 | closing ends a running session as cancelled by the operator and leaves others alone |
| LiveSession.Live.TimeoutFires | packages/driver-codex/src/index.ts:568-573 | the timer ends a running session as timed out and leaves others alone |
| LiveSession.Live.BeginWriting | packages/driver-codex/src/index.ts:508-533 | the writing that begins takes what the session holds at that moment |
| LiveSession.Live.Reload | packages/driver-codex/src/index.ts:535-551 | after a restart the session is the copy last written, without its handlers |
| LiveSession.Live.InspectAfter | packages/driver-codex/src/index.ts:321-331 | returns the rest of the stream as a batch that meets the refinement |
| GenericCommand.ReadingsAreWellShaped | packages/driver-generic-command/src/agent-driver.ts:376-522 | for every log the events are numbered 1..n with at most one terminal event and that one last |
| GenericCommand.ReadingsGrow | packages/driver-generic-command/src/agent-driver.ts:376-496 | a reading that nothing outside the log cut short is a prefix of a later reading of the grown log if and only if the files it declared read the same again and the later log can be read |
| GenericCommand.TerminalIsFixpoint | packages/driver-generic-command/src/agent-driver.ts:497-545 | once terminal, a later reading of the same log is the same if and only if the files it declared read the same again, through cancellations, expired timers and rewritten forcedTerminal |
| GenericCommand.ScanGrows | packages/driver-generic-command/src/agent-driver.ts:377-496 | the scan of a grown log extends the scan if and only if every declared file reads the same |
| GenericCommand.ThrowsUnreadable | packages/driver-generic-command/src/agent-driver.ts:424-445 | a scan throws exactly when it stops at a line that cannot be parsed or some declared file cannot be read |
| GenericCommand.RewrittenFileChangesTerminalReading | packages/driver-generic-command/src/agent-driver.ts:434-445 | a log on which the property fails: the declared file is rewritten after a terminal line and the reading changes; deleted, it throws |
| GenericCommand.CancellationSurvives | packages/driver-generic-command/src/agent-driver.ts:376-522 | a terminal that cancellation had stored by the end of a reading is still stored afterwards if and only if the scan threw, finished or stayed open, and in the open case the copy of forcedTerminal was taken after it or the container still ran (or what replaces it says the same) |
| GenericCommand.MalformedLineReplacesCancellation | packages/driver-generic-command/src/agent-driver.ts:381-394 | one way it is lost: a malformed line replaces a cancellation stored before the reading |
| GenericDriver.ScanLines | packages/driver-generic-command/src/agent-driver.ts:377-496 | the line loop with its breaks computes the specified scan |
| GenericDriver.Session.Events | packages/driver-generic-command/src/agent-driver.ts:376-522 | the object reads, settles and forces as specified, and its result is well shaped |
| GenericDriver.Session.InspectAll | packages/driver-generic-command/src/agent-driver.ts:292-306 | the timer is checked first, then the log is read; the result is well shaped |
| PortfolioReader.ReplayedIsDigested | packages/kernel/src/model.ts:1770-2199 | for every log that folds, each policy, target, admission, lease, manifest, candidate, work item, conflict, verification, receipt, incident and report sits under its own id and matches its digest, those rewritten in place included |
| PortfolioReader.ReplayedReadsBack | packages/kernel/src/projections.ts:1005-1136 | for every log that folds and every row order, reading the written tables fires no digest check and gives back every record |
| PortfolioReader.EvolveKept | packages/kernel/src/model.ts:1821-2177 | every step (grants, renewals, releases, fencing, acquired, prepared, conflicting, verified, authorized and promoted work) keeps records and digests together |
| TableReader.ReadRows | packages/kernel/src/projections.ts:1027-1088 | a reading loop files each row under its own id, or stops at the first digest that does not match |
| TableReader.ReadsBack | packages/kernel/src/projections.ts:1027-1088 | a table whose records match their digests reads back as it was, whatever order the rows come in |
| ArchiveReader.ReplayedIsDigested | packages/kernel/src/model.ts:401-760 | for every log that folds, each graph, context and outcome packet, validation, interview, milestone, routed issue, decision, attention record and proposal matches its digest, those rewritten in place included |
| ArchiveReader.IssueKeeps | packages/kernel/src/model.ts:1339-1436 | raising, resolving and satisfying a routed issue keeps every digest, with the issue rewritten in place and milestones paused and resumed |
| ArchiveReader.ReplayedReadsBack | packages/kernel/src/projections.ts:643-1004 | for every log that folds and every row order, reading these tables fires no digest check and gives back every record |
| ArchiveReader.WorkflowsReadExactly | packages/kernel/src/model.ts:763-780 | folding a workflow does not check its digest, so the reader objects to none at every position of a log if and only if each was registered with the digest of its definition |
| ArchiveReader.WorkflowTableReads | packages/kernel/src/projections.ts:359-383 | the workflow table reads back exactly when every stored workflow matches its digest, and otherwise the reader throws |
| ArchiveReader.MismatchedWorkflowFolds | packages/kernel/src/projections.ts:203-207 | a log that folds to a workflow the reader refuses; the reader of the log itself makes the missing check |
| ProgramColumns.ColumnsRoundTrip | packages/kernel/src/projections.ts:1365-1397 | writing and reading a program's mode, phase and resume phase is the identity exactly when mode and phase are set |
| ProgramColumns.TableAccepts | packages/kernel/migrations/001_initial.sql:732-745 | the checks on the six columns accept the row exactly when mode and phase fit together |
| ProgramColumns.ReplayedProgramsSurvive | packages/kernel/src/model.ts:349-548 | along a log that folds, the program is accepted and read back unchanged at every position if and only if integration becomes pending for graph_v2 programs alone |
| ProgramColumns.PendingGraphV1IsRefused | packages/kernel/src/model.ts:492-503 | a log at which it fails: a graph_v1 program folds to a row the table refuses |
| JobRows.DependenciesRoundTrip | packages/kernel/src/projections.ts:409-417 | rows in any order, read by job and ordinal, give back every ordered dependency list |
| JobRows.WriteRows | packages/kernel/src/projections.ts:1555-1563 | the insertion loops throw exactly when some list repeats a dependency, names its own job or an unknown one; otherwise they store one row per position of each list |
| JobRows.WriteList | packages/kernel/migrations/001_initial.sql:476-483 | the rows of one job are accepted by the constraints of the table exactly when its list is proper |
| JobRows.ReadRows | packages/kernel/src/projections.ts:409-417 | the reading loop gathers each job's rows in listing order |

## Left out

- OutcomeTheorems.BuildThenVerify: generation ids are assumed to be used once, as they are keys of a map in the source; the commands that record evidence are not part of this model, only their events.
- SessionRestarts.ReaderReassembles: a batch of more than 4096 events is refused by the batch schema, so the reader catches up only below that size.
- Advisor: policy proposals (compile and close) are treated as steps of the rest of the kernel; free text, notes and names of people are not carried.
- Advisor: the SHA-256 sample that selects audits after the first twenty is a parameter of the resolve command; idempotent command receipts and SQLite transactions are not modelled beyond "commit all or nothing".
- Advisor: deciders and `evolve` are functions on values, as in the source; the local event lists they push onto become sequence expressions.
- Advisor: the matcher's risk, safety and reversibility are the literals low, routine and reversible its schema fixes.
- Evaluation: real arithmetic instead of floating point; a square root is any non-negative root of the radicand.
- Outbound: schema parsing (string lengths, trimming, digest format) and `reconcileEffect` are not modelled.
- GitHub: label upsert, draft-PR update, pagination, text filters and HTTP are left out; whether an error text is retryable is an arbitrary function; faults, clocks and the observed world are parameters.
- Canonical: keys that look like array indices and `__proto__` follow no special enumeration order here; SHA-256 over the text is not modelled.
- Difference: paths are structured segments, not joined strings; `localeCompare` is an arbitrary function from ids to places.
- Outcome packets: summary and focus texts are left out; loops that push events or failures are recursive functions; ties between records of equal time are broken by an unspecified fixed order.
- Drivers: SDK clients and Docker are left out; what a handler finds in the workspace is a parameter; a handler may be interrupted between any two of its effects; readings of one generic command session do not overlap each other.
- Projection: of the tables without a digest check only programs and job dependencies are modelled.
- Portfolio and archive: the deciders are left out, so the results hold for any events that fold; texts are opaque; outcome packets keep a smaller form of admissions and leases, with the fields a release reads.
- Apps, notification adapter, evaluators, conformance kit, secret provider and runtime plumbing are left out; they would add input and output or easy members.

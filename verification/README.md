# Host protocols of a research node, verified

A Dafny model of the parts of the node that decide what is recorded, retried, dropped or shown: selection of
assertion windows, the host transition journal and policy change under crashes, one node's session lane, the
explorer loop with its gates, link revocation with the reassessment worker, the curator's boundary and staging, the
list of relied claims, and the fenced rendering of search hits. Every statement is for all inputs, all runs or all
interleavings of the modelled steps.

## Files

| file | models |
|---|---|
| `Basics.dfy`, `Text.dfy` | options, tables and set sizes; plain string search and counting |
| `AssertionDensity.dfy`, `AssertionAnchors.dfy`, `AssertionWindows.dfy` | the density search, the folding and ranked anchor search, the selection of up to two windows |
| `HostJournal.dfy` | the journal, its reconciliation, the admission check and the resume probe, with a crash after any file publication |
| `PolicyChange.dfy` | installing and resolving a policy, with a crash after any publication |
| `NodeLane.dfy` | wake decision, advisory lock, session marker, failure accounting and backoff, any number of processes |
| `Explorer.dfy` | the explorer loop, source coverage, actor searches |
| `LinkRevocation.dfy` | apply, cancel and cascade, and the worker that drains the jobs |
| `GraphRestriction.dfy` | the source graph without excluded sources |
| `Curator.dfy`, `CuratorRejections.dfy`, `PeriodGate.dfy`, `CuratorBoundary.dfy`, `CuratorStaging.dfy` | the proposal, the gates, the boundary, renumbering and two-pass attribution |
| `ReliedList.dfy` | the five contributors to the relied list |
| `SearchFence.dfy` | the fenced block of search hits and its budget |

## Assumptions

- Text is a sequence of characters and lower-casing works character by character; Python's `lower` can lengthen a
  string. Scores and durations are exact reals, not floats.
- Regular expressions, stop lists, tables of contents, value and period finders, the attribution detector, the rules
  engine, duplicate detection and forecast marks are arbitrary functions.
- A file publication (write, fsync, rename, fsync of the directory) is one atomic step; a process may die after any
  of them; hashes are injective, new ids fresh, and one process works on a journal at a time.
- The database grants one holder per advisory lock name and drops the lock with its connection, and a connection
  lives as long as its process. A database transaction is atomic.
- Clocks, model decisions, policy verdicts and tool outcomes are inputs.

## Where the code does less than its words

Each entry names the lemma with a concrete input first and the lemma with the exact condition second.

- The bonuses of the density search can outweigh a whole stem (`AssertionWindows.StemLostAtStart`,
  `AssertionDensity.BestHasMostStemsIff`).
- A persisted unresolved attempt is never resolved by a later probe, because the nested admission check sees the
  probe's own head (`HostJournal.OneOutageIsForever`, `HostJournal.ProbeResolvesIff`; for whole runs
  `HostJournal.NoLaterProbeResolves`).
- An event file of the journal changes its content when the last probe of its attempt died between its event and its
  record, and only then (`HostJournal.EventChangesItsContent`, `HostJournal.EventsChangeIff`). Policy events never do.
- A node that is not paused can have the maximal number of failures: a wake granted before the pause takes the lane and
  writes its marker over it, or a new configuration lowers the maximum to a count already reached
  (`NodeLane.PauseBreaks` and `NodeLane.LoweringBreaks`, `NodeLane.PauseHoldsIff`).
- Completion is not always reachable: a pending named source is lost once every address with its coverage key is on a
  host that refused (`Explorer.RefusedHostEndsHope`, `Explorer.CompletionIsReachableIff`). The key is the registrable
  domain and the path while hosts keep their subdomains, so another subdomain that has not refused still covers the
  source; a host without subdomains, such as an address literal, leaves none.
- The last-evidence guard looks up active revocations of the named links only, so a second command can empty a claim
  without the flag (`LinkRevocation.GuardMissesEarlierRevocation`, `LinkRevocation.EmptiedIff`).
- Cancelling a revocation does not requeue a head that is already invalid, and no later apply, cancel or worker step
  does (`LinkRevocation.CancelLeavesInvalid`, `LinkRevocation.CancelRequeuesIff`). A session that commits on the claim
  promotes the head, and an activation gives the claim a new one under the next snapshot (`LinkRevocation.AbandonedUntil`,
  `LinkRevocation.ActivationLooksAgain`).
- A claim can lose every link to the period gate and survive: when it names two periods, or a period and a document
  date, and each is confirmed by another link (`PeriodGate.TwoPeriodsKeepTheClaim`,
  `PeriodGate.LosesLinksKeepsClaimIff`). Such an operation is accepted and staged without any of the evidence it was
  proposed with (`CuratorBoundary.AcceptedWithoutEvidence`, `CuratorBoundary.StrandedIff`).
- Relied ids rescue a proposal that the value and period gates emptied only while the rules engine has no line at
  all, and the engine is shown the dropped operations too (`CuratorBoundary.DroppedOperationSinksAnswer`,
  `CuratorBoundary.ReliedOnlyIff`).

## Model

| member | source | states |
|---|---|---|
| `AssertionDensity.DensestOffset` | apps/orchestrator/assertion_window.py:299-344 | the two-pointer pass returns the earliest match offset of maximal score over distinct stems in the closed span, as the quadratic search over all matches defines it |
| `AssertionDensity.TallyDropFirst` | apps/orchestrator/assertion_window.py:317-344 | decrementing the leftmost stem of the sliding dictionary gives the count of the shorter range, several stems at one offset included |
| `AssertionDensity.SpanSize` | apps/orchestrator/assertion_window.py:317-336 | the dictionary's size never exceeds the distinct stems of the full span and equals it at the first match of an offset |
| `AssertionDensity.BonusRange` | apps/orchestrator/assertion_window.py:326-334 | number and start bonus together stay in 0..1, with the exact cases of 0 and 1 |
| `AssertionDensity.BonusTells` | apps/orchestrator/assertion_window.py:326-334 | the number bonus is given exactly for a digit from the offset to 1500 past the span, the start bonus falls linearly to 0 at 8000 |
| `AssertionDensity.BestLosesOnlyAtStart` | apps/orchestrator/assertion_window.py:287-344 | the winner misses a stem of another offset only at offset 0, and then exactly one |
| `AssertionDensity.BestHasMostStemsIff` | apps/orchestrator/assertion_window.py:287-344 | the winner has the maximal number of distinct stems if and only if the start does not outweigh a stem |
| `AssertionAnchors.FoldWithMap` | apps/orchestrator/assertion_window.py:544-555 | the fold and a strictly increasing map from folded to original offsets, consistent at every prefix |
| `AssertionAnchors.FoldedMatchIsVerbatim` | apps/orchestrator/assertion_window.py:544-579 | a folded match mapped back is a slice of the original whose fold is the needle |
| `AssertionAnchors.FoldSearchIsComplete` | apps/orchestrator/assertion_window.py:539-555 | every slice of the original that folds to the needle is found in the fold |
| `AssertionAnchors.SignalsAreTerms` | apps/orchestrator/assertion_window.py:616-646 | the signals are the given terms, each once |
| `AssertionAnchors.SignalsComeFromTerms` | apps/orchestrator/assertion_window.py:616-646 | every signal is a quote, a value, an explorer value or, in date form, a date, at its own place in its list, and there are as many signals as terms |
| `AssertionAnchors.TermsAreSignals` | apps/orchestrator/assertion_window.py:616-646 | and every term is a signal of its own kind |
| `AssertionAnchors.SpecificityIs` | apps/orchestrator/assertion_window.py:609-646 | the finer order counts the digits of a term |
| `AssertionAnchors.SignalsAreRanked` | apps/orchestrator/assertion_window.py:609-646 | quotes before values, the question's before the explorer's, dates last; more digits first within a kind of values, equally specific values and quotes in their order of appearance |
| `AssertionAnchors.TrySignal` | apps/orchestrator/assertion_window.py:790-837 | up to 12 occurrences, left to right, none skipped: the first free place wins, a covered one skips the signal, otherwise the first clash pins |
| `AssertionAnchors.ExactAnchorStart` | apps/orchestrator/assertion_window.py:758-837 | the result is that of the highest-ranked signal that is not skipped |
| `AssertionAnchors.OutcomeIsUnique` | apps/orchestrator/assertion_window.py:790-837 | that specification leaves a signal one outcome |
| `AssertionAnchors.SkippedIff` | apps/orchestrator/assertion_window.py:800-837 | a signal with a non-empty fold is skipped exactly when the fold has one character or its outcome is to skip |
| `AssertionAnchors.VerdictTells` | apps/orchestrator/assertion_window.py:558-579 | an occurrence is unfit exactly inside a longer number or a table of contents, covered exactly inside the primary window, and otherwise free or a clash by the overlap of its own window |
| `AssertionAnchors.PlacedWindowIsFree` | apps/orchestrator/assertion_window.py:800-837 | a non-displacing window shows a verbatim acceptable occurrence and is disjoint from the primary window |
| `AssertionAnchors.WindowShowsOccurrence` | apps/orchestrator/assertion_window.py:800-837 | with room behind the lead, a window opened for an occurrence shows all of it |
| `AssertionAnchors.PinMeansNoFreePlace` | apps/orchestrator/assertion_window.py:800-837 | displacement means every acceptable occurrence tried overlaps the primary and none lies inside it |
| `AssertionWindows.BestMatchIsPageBest` | apps/orchestrator/assertion_window.py:274-344 | the best match of the collected, sorted list is the best offset of the page for the kept stems |
| `AssertionWindows.StemLostAtStart` | apps/orchestrator/assertion_window.py:287-344 | a page, with all its matches, on which the winner has fewer stems than another offset |
| `AssertionWindows.SelectAssertionWindow` | apps/orchestrator/assertion_window.py:229-344 | refuses a non-positive budget; otherwise the whole short text, the leading prefix without kept stems, or the window before the best offset |
| `AssertionWindows.KeptOnIff` | apps/orchestrator/assertion_window.py:275-285 | a stem is kept exactly when it is a term on the page, not page furniture, and counted at most four times or at most half of all matches |
| `AssertionWindows.TotalAdds` | apps/orchestrator/assertion_window.py:275-279 | the number of all matches is the sum over the terms |
| `Text.CountIsGreedy` | apps/orchestrator/assertion_window.py:275-275 | what is counted are occurrences without overlap, each the next one past the end of the one before |
| `AssertionWindows.WindowShowsBest` | apps/orchestrator/assertion_window.py:336-344 | the window starts the lead before the best offset, or at 0, and shows that offset |
| `AssertionWindows.BestValueWindowStart` | apps/orchestrator/assertion_window.py:840-865 | the earliest eligible number in the fact zone of maximal decayed score, or none |
| `AssertionWindows.ValueStartTells` | apps/orchestrator/assertion_window.py:450-865 | there is no value window exactly when no number of the first 16000 characters qualifies: beside terms or data values, outside tables of contents, its window clear of the avoided one |
| `AssertionWindows.ValueScoreTells` | apps/orchestrator/assertion_window.py:470-482 | a data value weighs as two terms, and the weight decays linearly to nothing at 16000 |
| `AssertionWindows.TermsInCounts` | apps/orchestrator/assertion_window.py:473-476 | every term of the list that stands in the text counts once |
| `AssertionWindows.ValueWindowIsFree` | apps/orchestrator/assertion_window.py:851-865 | the value window lies on the page and avoids the given window |
| `AssertionWindows.CombinationIsSelection` | apps/orchestrator/assertion_window.py:954-989 | the windows built from primary, anchor and filler are verbatim, within budget and disjoint, displaced case included |
| `AssertionWindows.CombinationTells` | apps/orchestrator/assertion_window.py:954-989 | which windows are shown: the anchor's always, the primary one unless displaced or a mere prefix beside another, the filler in a free slot; a displaced pair in page order |
| `AssertionWindows.SelectAssertionWindows` | apps/orchestrator/assertion_window.py:868-989 | between 1 and max_windows (never more than 2) disjoint verbatim windows within budget, determined by the three searches |
| `HostJournal.ReconcileIsClean` | hostctl/journal.py:273-352 | on a reachable disk reconciliation reports no problem, keeps records and events, and leaves a head exactly for the unresolved attempt |
| `HostJournal.ReconcileIsIdempotent` | hostctl/journal.py:273-352 | a second reconciliation changes nothing |
| `HostJournal.ReconcileTells` | hostctl/journal.py:273-352 | on any disk, damaged ones included: which of the four problems is reported, exactly when, and that only the head is written |
| `HostJournal.ProbeKeepsInv` | hostctl/resume.py:105-187 | the journal invariant holds at each point where a probe may die |
| `HostJournal.ReachableJournal` | hostctl/journal.py:273-352 | from an empty journal over all probes and crashes: at most one unresolved record, a head names an existing record of its identity, reconciliation reports no problem |
| `HostJournal.ReachableStream` | hostctl/journal.py:346-352 | and the events of every attempt are 1..k with k the record's last number or one more |
| `HostJournal.ProbeResolvesIff` | hostctl/admission.py:66-74 | a probe resolves if and only if nothing was unresolved and the outside is healthy |
| `HostJournal.ProbeAnswers` | hostctl/resume.py:71-187 | from the disk and the outside world: blocked exactly when the database is up and the config head is broken, a policy change is in progress or the policy is invalid; retry exactly when neither resolved nor blocked; never degraded; the record's state, error and counts, the event and the head |
| `HostJournal.ReachableProbe` | hostctl/resume.py:105-187 | the same for every probe of every run |
| `HostJournal.UnresolvedStays` | hostctl/resume.py:105-187 | an unresolved attempt stays unresolved through a probe and any crash in it |
| `HostJournal.StuckForever` | hostctl/resume.py:105-187 | and through every continuation of the run |
| `HostJournal.NoLaterProbeResolves` | hostctl/admission.py:66-74 | no later probe reports success |
| `HostJournal.OneOutageIsForever` | hostctl/admission.py:66-74 | a run in which the database was down once and the next, healthy probe is refused by its own head |
| `HostJournal.RunsKeepCounts` | hostctl/resume.py:105-187 | over every run no event is ahead of its record's count of attempts |
| `HostJournal.EventReplacedIff` | hostctl/journal.py:249-257 | a probe changes the content of a published event file if and only if the last probe of its attempt died between event and record, and then of that event only |
| `HostJournal.EventsChangeIff` | hostctl/resume.py:105-187 | the same at every point of every run |
| `HostJournal.EventChangesItsContent` | hostctl/resume.py:105-187 | a run in which event 1 says two different things |
| `HostJournal.JournalStore.Reconcile` | hostctl/journal.py:273-337 | the reconciliation as head, record and event files are read, written and removed |
| `HostJournal.JournalStore.AdmissionCheck` | hostctl/admission.py:46-97 | the problems in their order, with the nested reconciliation's effect |
| `HostJournal.JournalStore.RunResumeProbe` | hostctl/resume.py:93-190 | the disks the probe publishes are exactly the points of the specified trace; on a valid journal the outcome and the disk left are those that the environment and the open attempt determine |
| `PolicyChange.CommandIsSafe` | hostctl/policy_change.py:143-231 | at every publication of install and resolve: events only added, heads dropped only when settled, invariant kept |
| `PolicyChange.RunsKeepInv` | hostctl/policy_change.py:143-231 | over all commands and crashes the invariant holds |
| `PolicyChange.EventsAreImmutable` | hostctl/policy_change.py:72-94 | no event file vanishes or changes in any run |
| `PolicyChange.ReachablePolicy` | hostctl/policy_change.py:72-111 | contiguous event numbers, a head whose prepared event exists, and without a head an override equal to the last terminal event's hash |
| `PolicyChange.ClosedForever` | hostctl/policy_change.py:77-111 | the stream of a change that is not the head's never grows again |
| `PolicyChange.RefusedIff` | hostctl/policy_change.py:143-231 | which refusal a command gets, exactly when |
| `PolicyChange.CommandCompletes` | hostctl/policy_change.py:143-231 | a completed install or replacement leaves the given file as the override, an acceptance the one it found; the head is gone and the stream has grown by exactly the command's events |
| `PolicyChange.OverrideChangesUnderHead` | hostctl/policy_change.py:143-231 | publication by publication the override changes only to the given file and only while the head stands |
| `PolicyChange.PolicyStore.InstallPolicy` | hostctl/policy_change.py:143-181 | refusals in order, else the five publications; afterwards the override is the candidate |
| `PolicyChange.PolicyStore.ResolveAcceptingCurrent` | hostctl/policy_change.py:184-231 | the specified refusal, or the change is closed with the override as it was |
| `PolicyChange.PolicyStore.ResolveWithReplacement` | hostctl/policy_change.py:184-231 | the specified refusal, or preparation, override, resolution and removal are published; afterwards the override is the replacement |
| `NodeLane.BackoffIsMonotone` | apps/orchestrator/scheduler.py:326-340 | the delay never shrinks with more failures, starts at base and stays within max |
| `NodeLane.BackoffIsGeometric` | apps/orchestrator/scheduler.py:326-340 | the n-th delay is the n-th term of the geometric sequence in whole seconds until it meets the cap |
| `NodeLane.WaitsFor` | apps/orchestrator/scheduler.py:298-323 | a tick waits for the interval, then the gap, then the backoff, and is due exactly when all have passed |
| `NodeLane.OneSessionAtATime` | apps/orchestrator/node_guard.py:114-166 | in every interleaving with crashes at most one process is between acquire and release, and the counter is the trailing run of failures |
| `NodeLane.PauseHoldsIff` | apps/orchestrator/scheduler.py:658-700 | a non-paused node always has fewer than the effective maximum of failures exactly in runs without a stale marker and without a configuration that lowers the maximum to a count already reached |
| `NodeLane.GrantedOnlyUnpaused` | hostctl/cli.py:281-300 | a process is admitted only by an admitting decision on a node that is not paused |
| `NodeLane.ResumeClears` | apps/orchestrator/scheduler.py:702-714 | the operator's resume clears pause, counter and backoff and nothing else |
| `NodeLane.GrantGoesStale` | hostctl/cli.py:281-351 | how a grant goes stale |
| `NodeLane.StaleGrantErasesPause` | hostctl/cli.py:311-346 | such a grant takes the lane and its success erases pause and counter |
| `NodeLane.PauseBreaks` | hostctl/cli.py:281-351 | a whole run from boot that breaks the pause |
| `NodeLane.LoweringBreaks` | apps/orchestrator/scheduler.py:666-667 | a run without any race in which a new configuration does |
| `NodeLane.NodeSessionGuard.Acquire` | apps/orchestrator/node_guard.py:114-141 | try-lock, idempotent while held; an error, and no lane, when the database cannot say |
| `NodeLane.NodeSessionGuard.Release` | apps/orchestrator/node_guard.py:143-166 | idempotent; another process's lock is left alone |
| `NodeLane.NodeDb.RecordSessionResult` | apps/orchestrator/scheduler.py:658-700 | the accounting transaction: counter, backoff from the delay of the new count, finish time, and a pause at the maximum or kept |
| `NodeLane.WakeTick` | hostctl/cli.py:256-351 | the lane is returned on every path; no session starts before interval, gap and backoff have passed or on a paused node; an outcome is recorded exactly when the session ran; every exit code |
| `NodeLane.TickTells` | hostctl/cli.py:256-351 | when a tick starts a session, what it leaves in the row and which exit code it returns, from the clock, the row and the outside |
| `NodeLane.TickIsTheSteps` | hostctl/cli.py:281-351 | an undisturbed tick is the interleaved steps in a row |
| `Explorer.AtMostTwice` | apps/orchestrator/orchestrator.py:2176-2204 | in every run each (tool, arguments) pair executes at most twice |
| `Explorer.OneAggregate` | apps/orchestrator/question_actors.py:184-206 | at most one aggregate actor search succeeds |
| `Explorer.RefusedHostIsLeftAlone` | apps/orchestrator/orchestrator.py:2272-2294 | after a refusal of a host no later fetch of it executes |
| `Explorer.EveryEntryHasItsReason` | apps/orchestrator/orchestrator.py:2176-2331 | in every run an executed call was allowed by the policy with no fact against it, a denied call names the first fact there is (two executions, a search without a new stem, an earlier aggregate, a refusal of the host, the policy), and a call without any such fact executes |
| `Explorer.EveryTurnHasItsEntry` | apps/orchestrator/orchestrator.py:2063-2095 | a completion is withheld only for a named source without a definitive fetch |
| `Explorer.StatusIsFirstFetch` | apps/orchestrator/source_coverage.py:116-127 | a source's status is the outcome of its first definitive fetch, pending exactly without one |
| `Explorer.CoverageIsMonotone` | apps/orchestrator/source_coverage.py:116-127 | once covered, a source keeps its status |
| `Explorer.CompletionIsCovered` | apps/orchestrator/orchestrator.py:2063-2095 | an accepted COMPLETE means every trackable named source had an executed definitive fetch, and its status is that of the first |
| `Explorer.OutOfReachBlocksCompletion` | apps/orchestrator/orchestrator.py:2272-2294 | a pending source on refused hosts stays pending and the run never completes |
| `Explorer.CoverableIff` | apps/orchestrator/orchestrator.py:2272-2294 | a pending source can be covered by one more turn if and only if some address of its key is not on a refused host |
| `Explorer.CompletionIsReachableIff` | apps/orchestrator/orchestrator.py:2063-2095 | a run can still complete, given a turn for each named source and one more, if and only if no pending named source is out of reach |
| `Explorer.RefusedHostEndsHope` | apps/orchestrator/orchestrator.py:2272-2294 | a run in which a refusal, a denied fetch and a withheld COMPLETE follow and no continuation completes |
| `Explorer.SourceCoverageTracker.Mark` | apps/orchestrator/source_coverage.py:116-127 | only a pending matching source changes |
| `Explorer.SourceCoverageTracker.UncoveredSources` | apps/orchestrator/source_coverage.py:129-139 | the first spelling of each pending source, in question order |
| `Explorer.SpellingsDiffer` | apps/orchestrator/source_coverage.py:129-139 | no two of them are one source |
| `Explorer.SpellingsKeepKeys` | apps/orchestrator/source_coverage.py:129-139 | and no source is lost |
| `Explorer.SourceCoverageTracker.Report` | apps/orchestrator/source_coverage.py:145-157 | the named addresses by standing, each list in question order |
| `Explorer.NamedWithHas` | apps/orchestrator/source_coverage.py:145-157 | an address is in the list of its own standing and in no other |
| `Explorer.SourceCoverageTracker.IsComplete` | apps/orchestrator/source_coverage.py:141-143 | true exactly when no named source is pending |
| `Explorer.ActorSearchTracker.RepeatRefusal` | apps/orchestrator/question_actors.py:188-196 | refuses exactly a further aggregate query of a multi-actor question |
| `Explorer.ActorSearchTracker.MarkExecuted` | apps/orchestrator/question_actors.py:198-206 | separate searches cover, the first aggregate arms the gate |
| `Explorer.ExplorerSession.CheckGates` | apps/orchestrator/orchestrator.py:2176-2330 | the gates in their order, from counters, lists and trackers; what they let through is `Explorer.EveryEntryHasItsReason` |
| `Explorer.ExplorerSession.Account` | apps/orchestrator/orchestrator.py:2347-2510 | the counters and trackers keep saying what the log says |
| `Explorer.ExplorerSession.Run` | apps/orchestrator/orchestrator.py:1925-2513 | the loop produces the log and the end the specification gives |
| `LinkRevocation.RunKeepsInv` | apps/orchestrator/link_audit.py:951-995 | over every run of apply, cancel, worker steps, activations with their prepared heads and jobs, and session commits: one active revocation a link, one open job for each pending head, evidence rows unchanged, revocation rows never deleted, edited or un-cancelled |
| `LinkRevocation.PendingHasOneJob` | apps/orchestrator/link_audit.py:951-995 | a pending head has exactly one open job for its claim and snapshot |
| `LinkRevocation.CascadeEffect` | apps/orchestrator/link_audit.py:951-995 | exactly the current heads of the claims under the effective snapshot go down |
| `LinkRevocation.ApplyRevokes` | apps/orchestrator/link_audit.py:1100-1300 | afterwards the revoked links are the ones revoked before and the ones named |
| `LinkRevocation.ApplyAnswers` | apps/orchestrator/link_audit.py:1037-1256 | an apply with a reason is free of refusals if and only if each named link exists with a known claim and is revoked already or a supports link without the value, of an uncorrected source and a current head; every other named link is listed with its reason; the last-evidence refusal exactly when all links of a touched claim are named |
| `LinkRevocation.RefusedInOrder` | apps/orchestrator/link_audit.py:1100-1210 | refusals are listed in the order in which the links were first named |
| `LinkRevocation.ApplyLeavesRows` | apps/orchestrator/link_audit.py:1257-1300 | the rows added are for named links that were not revoked, with the link's claim and the given reason; old rows stay |
| `LinkRevocation.ApplyLeavesHeads` | apps/orchestrator/link_audit.py:1257-1300 | exactly the current heads of newly touched claims under the effective snapshot become pending |
| `LinkRevocation.AllRevokedIsIdle` | apps/orchestrator/link_audit.py:1128-1143 | naming only revoked links writes nothing whatever the heads |
| `LinkRevocation.RepeatIsIdle` | apps/orchestrator/link_audit.py:1128-1143 | repeating an accepted apply writes nothing although its heads are pending |
| `LinkRevocation.EmptiedIff` | apps/orchestrator/link_audit.py:1213-1256 | an accepted apply leaves a claim without live evidence if and only if every unnamed link was already revoked |
| `LinkRevocation.GuardSeesUnnamed` | apps/orchestrator/link_audit.py:1213-1256 | without the flag a touched claim has a link that was not named |
| `LinkRevocation.GuardHolds` | apps/orchestrator/link_audit.py:1213-1256 | and keeps live evidence when no unnamed link was revoked before |
| `LinkRevocation.GuardMissesEarlierRevocation` | apps/orchestrator/link_audit.py:1086-1086 | a run from a fresh claim after which its last live link is revoked without the flag |
| `LinkRevocation.CancelEffect` | apps/orchestrator/link_audit.py:1355-1407 | a cancel keeps the rows, ends the named revocations and takes down the current heads of their claims |
| `LinkRevocation.CancelAnswers` | apps/orchestrator/link_audit.py:1334-1407 | a cancel is accepted exactly with a reason and known rows; afterwards a link is revoked exactly by an active row that was not named |
| `LinkRevocation.CancelTakesDown` | apps/orchestrator/link_audit.py:1355-1407 | a head falls exactly when it is current and an active row of its claim was named |
| `LinkRevocation.RepeatedCancelIsIdle` | apps/orchestrator/link_audit.py:1355-1407 | repeating it writes nothing |
| `LinkRevocation.CancelRequeuesIff` | apps/orchestrator/link_audit.py:959-970 | after a cancel the head has a job if and only if it was not invalid without one |
| `LinkRevocation.CancelLeavesInvalid` | apps/orchestrator/link_audit.py:959-970 | a run from a fresh claim: after an accepted cancel the link is live and the head invalid without a job |
| `LinkRevocation.AbandonedUntil` | packages/memory/service.py:1330-1347 | only a session's commit on the claim, or another activation of its snapshot, gets an invalid head without a job out of that state |
| `LinkRevocation.PreparedHead` | packages/memory/activation.py:1000-1055 | an activation gives every claim a head: carried over when current under the base with an unchanged rule, pending otherwise |
| `LinkRevocation.ActivationLooksAgain` | packages/memory/activation.py:1000-1055 | a claim whose head was given up has a pending head with a job under the next snapshot |
| `LinkRevocation.AbandonedForever` | apps/orchestrator/link_audit.py:959-970 | in every run without those it stays so |
| `LinkRevocation.ProcessSettles` | packages/memory/reassessment.py:336-624 | a leased job leaves a pending head current exactly when a live link is left, invalid otherwise, and without an open job |
| `LinkRevocation.ProcessAnswers` | packages/memory/reassessment.py:336-624 | what a leased job comes to in every case: requeued under another snapshot, blocked without claim or head, completed otherwise; a current head stays current |
| `LinkRevocation.JobMoves` | packages/memory/reassessment.py:336-624 | a job changes its status only along the worker's moves and by an act on itself |
| `LinkRevocation.BlockTakesHead` | packages/memory/reassessment.py:675-718 | a job that is given up invalidates its head unless that is current |
| `LinkRevocation.ProcessKeepsInv` | packages/memory/reassessment.py:336-624 | on every path of a job the queue and revocation invariants hold |
| `LinkRevocation.Journal.Decide` | apps/orchestrator/link_audit.py:1037-1256 | every check before the first write, in order; refused exactly when a named link may not be revoked, with every such link and its reason |
| `LinkRevocation.Journal.ApplyRevocations` | apps/orchestrator/link_audit.py:1010-1300 | writes everything or, when refused, nothing; accepted only when every named link may be revoked |
| `LinkRevocation.Journal.CancelRevocations` | apps/orchestrator/link_audit.py:1334-1407 | likewise for cancel |
| `LinkRevocation.Journal.CascadeClaim` | apps/orchestrator/link_audit.py:951-995 | one claim: current head down, one job if none is open |
| `GraphRestriction.RestrictionHolds` | apps/orchestrator/link_audit.py:426-478 | nothing when all members are excluded, else exactly the other members, the nodes of members and their parents, and the links, corrections and recorded parents among them |
| `GraphRestriction.LookupIsLast` | apps/orchestrator/link_audit.py:426-478 | a node is looked up by its id, the last one winning |
| `GraphRestriction.FilterKeepsOrder` | apps/orchestrator/link_audit.py:426-478 | members, edges and corrections that stay keep their order |
| `GraphRestriction.PickedInOrder` | apps/orchestrator/link_audit.py:426-478 | the nodes come in the order of members and sorted parents |
| `GraphRestriction.ExcludeTwice` | apps/orchestrator/link_audit.py:426-478 | excluding in two steps equals excluding the union, all fields and the empty case |
| `GraphRestriction.ExclusionsCommute` | apps/orchestrator/link_audit.py:426-478 | the order of exclusions does not matter |
| `GraphRestriction.SurvivesAsParentIff` | apps/orchestrator/link_audit.py:441-460 | an excluded source keeps its node exactly as a parent of a remaining member |
| `CuratorRejections.SplitStructural` | apps/orchestrator/curator_rejections.py:116-135 | every line goes to its operation or to the whole proposal, in order |
| `CuratorRejections.RuleGroupAt` | apps/orchestrator/curator_rejections.py:138-152 | an operation's group is the lines that follow its name |
| `CuratorRejections.GroupRules` | apps/orchestrator/curator_rejections.py:138-152 | the loop builds those groups |
| `CuratorRejections.LinksWithoutValue` | apps/orchestrator/curator_rejections.py:258-322 | a link goes exactly when it supports a live operation with texts that lack the value; an operation goes with its last link |
| `CuratorRejections.CountersStay` | apps/orchestrator/curator_rejections.py:286-322 | no counters link is removed, nor an operation that has one |
| `PeriodGate.PeriodMissingIff` | apps/orchestrator/curator_period_gate.py:978-1021 | a period is missing for the claim exactly when some link carries the value and all such links miss it |
| `PeriodGate.DateMissingIff` | apps/orchestrator/curator_period_gate.py:997-1021 | a document date is missing for the claim exactly when some link has texts and all such links miss it |
| `PeriodGate.ClaimFaultIff` | apps/orchestrator/curator_period_gate.py:1011-1031 | a claim is rejected for its periods and dates exactly when one of them is heard by a link and confirmed by none |
| `PeriodGate.ClaimRejectedIff` | apps/orchestrator/curator_period_gate.py:960-1031 | a claim is rejected exactly as a forecast without any date or for a token that its links' texts together lack; the reason says which and names the tokens, three at most |
| `PeriodGate.LinkRejectedIff` | apps/orchestrator/curator_period_gate.py:978-1010 | a link is rejected exactly for a token that its own texts lack |
| `PeriodGate.ClaimRejectionTakesLinks` | apps/orchestrator/curator_period_gate.py:978-1031 | a claim rejected for a period or a date loses every link that has a say on it |
| `PeriodGate.LosesLinksKeepsClaimIff` | apps/orchestrator/curator_period_gate.py:987-1031 | a claim loses every link and is not rejected if and only if every link misses a period or a date and each of them that a link has a say on is confirmed by one |
| `PeriodGate.OneTokenAgrees` | apps/orchestrator/curator_period_gate.py:987-1031 | with one period or one date named, claim and links agree in both directions |
| `PeriodGate.TwoPeriodsKeepTheClaim` | apps/orchestrator/curator_period_gate.py:987-1031 | two pages and two periods, or a period and a document date: all links go and the claim stays |
| `PeriodGate.PooledAgrees` | apps/orchestrator/curator_period_gate.py:1040-1063 | without overrides the claim verdicts are those of the pooled-text API on the concatenated texts |
| `PeriodGate.RejectionsByLinks` | apps/orchestrator/curator_period_gate.py:932-1037 | the loops give every claim and link its own verdict, which is the one its statement and texts determine |
| `CuratorBoundary.StagesGrow` | apps/orchestrator/orchestrator.py:3734-4271 | through all stages the dropped set only grows and a first reason stays |
| `CuratorBoundary.StrandedIff` | apps/orchestrator/orchestrator.py:4120-4151 | a survivor that proposed links has none left to stage if and only if the period gate takes all that the value gate left |
| `CuratorBoundary.AcceptedWithoutEvidence` | apps/orchestrator/orchestrator.py:4120-4151 | an accepted proposal whose operation is staged without any of its links |
| `CuratorBoundary.SurvivorIsAccepted` | apps/orchestrator/orchestrator.py:3734-4304 | with a survivor, only a line about the whole proposal or an empty-proposal defect refuses it |
| `CuratorBoundary.AcceptedHasAnswer` | apps/orchestrator/orchestrator.py:3734-4304 | an accepted proposal has a survivor, or had no claims, or relied ids stand in |
| `CuratorBoundary.ReliedOnlyIff` | apps/orchestrator/orchestrator.py:4262-4291 | a proposal emptied by the value and period gates is accepted if and only if relied ids are allowed and present and the rules engine has no line |
| `CuratorBoundary.DroppedOperationSinksAnswer` | apps/orchestrator/orchestrator.py:4262-4291 | a proposal with a relied id whose period-dropped operation keeps its link in the engine's view and is sunk by a line about it |
| `CuratorBoundary.RulesReasonNamesIt` | apps/orchestrator/orchestrator.py:4262-4271 | a rules line drops an operation exactly when one names it, and the reason is the first that does |
| `CuratorBoundary.BoundaryTells` | apps/orchestrator/orchestrator.py:3734-4304 | stage by stage from the proposal and the checks' answers: which operations fall with which reason, which links go, that converted operations are staged as re-verifications and need no date, what the period gate is given, and which stage refuses the proposal |
| `CuratorBoundary.RunBoundary` | apps/orchestrator/orchestrator.py:3734-4304 | the stages as they run give the specified verdict, and that verdict, its reasons, links and staged operations are those told from the proposal alone |
| `CuratorStaging.RankIsBijection` | apps/orchestrator/orchestrator.py:3394-3395 | a survivor's staged index finds it again among the survivors |
| `CuratorStaging.RankKeepsOrder` | apps/orchestrator/orchestrator.py:3394-3395 | staging keeps the order |
| `CuratorStaging.EveryPlaceIsTaken` | apps/orchestrator/orchestrator.py:3394-3395 | every staged index belongs to a survivor |
| `CuratorStaging.KeptAtRank` | apps/orchestrator/orchestrator.py:3394-3404 | a survivor is staged at its index |
| `CuratorStaging.OpsPointHome` | apps/orchestrator/orchestrator.py:3454-3500 | every evidence entry comes from a kept link of a survivor and points at the same claim |
| `CuratorStaging.EveryStagedLinkHasOp` | apps/orchestrator/orchestrator.py:3454-3500 | and every such link has its entry |
| `CuratorStaging.KeyOf` | apps/orchestrator/attribution_keys.py:23-34 | a decision gives its key exactly when it is derivative, has one, and was paired strictly or by publication |
| `CuratorStaging.DecisionsFollowLinks` | apps/orchestrator/orchestrator.py:3428-3490 | permuting the links permutes the decisions and changes none |
| `CuratorStaging.NoChains` | apps/orchestrator/orchestrator.py:3428-3490 | decisions taken with keys never become keys |
| `CuratorStaging.Stage` | apps/orchestrator/orchestrator.py:3394-3500 | the two passes stage the surviving claims in order and one entry for each kept link, in order, pointing at its claim; its decision is the detector's without keys or, when that attributes nothing, with exactly the keys the claim's staged links give strictly or by publication and the recorded ones |
| `CuratorStaging.GatedLinksAreNotStaged` | apps/orchestrator/orchestrator.py:3909-3929 | no link the value gate judged absent is staged; counters links of survivors all are |
| `ReliedList.ResolvesIff` | packages/memory/service.py:130-180 | a full id resolves exactly when visible, a prefix exactly when it begins one visible id, to that id |
| `ReliedList.ExtendedAdds` | apps/orchestrator/relied_supplement.py:85-123 | a contributor adds new, unblocked candidates, none twice, never over the cap |
| `ReliedList.ExtendedIsComplete` | apps/orchestrator/relied_supplement.py:85-123 | and leaves none out while there is room |
| `ReliedList.FinalIsProper` | apps/orchestrator/orchestrator.py:3305-3381 | at most eight distinct ids, all from the pack, the curator's first, none the host added a target of a surviving operation |
| `ReliedList.FinalIsComplete` | apps/orchestrator/orchestrator.py:3525-3601 | an id is on the list only with a contributor (declared, carried, dropped reference, answer, fresher forecast), and every id with one is on it while it has fewer than eight |
| `ReliedList.AddedForecastIsFresher` | apps/orchestrator/relied_supplement.py:126-184 | a forecast is added only where the card's records of its series are all outdated |
| `ReliedList.ListedOrRefused` | apps/orchestrator/orchestrator.py:4726-4774 | every reference is on the list, an operation's target, or refused by name |
| `ReliedList.CollectDeclared` | apps/orchestrator/orchestrator.py:3875-3895 | the declared ids of a proposal, accepted or rejected first, and the references refused |
| `ReliedList.AddReferences` | apps/orchestrator/orchestrator.py:4726-4774 | the ids that references of dropped operations and of the answer add, and the references refused; an operation's target is refused by name in the answer only |
| `ReliedList.AddForecasts` | apps/orchestrator/relied_supplement.py:126-184 | the supplements with their series and the card records they replace, and those the cap keeps out |
| `ReliedList.BuildRelied` | apps/orchestrator/orchestrator.py:3525-3601 | the five contributors in their order build the specified list, and nothing with a contributor is missing while there is room |
| `SearchFence.ReplacedHasNone` | apps/orchestrator/search_view.py:61-75 | after neutralising, neither the marker nor one the text did not have is there |
| `SearchFence.OneLineIsFree` | apps/orchestrator/search_view.py:61-75 | a field has neither marker nor line break and is within its limit |
| `SearchFence.CleanFieldIsShown` | apps/orchestrator/search_view.py:61-75 | a field without markers is shown as its own text, line breaks as spaces, spaces around it gone, cut at the limit |
| `SearchFence.ReplacedBetween` | apps/orchestrator/search_view.py:72-75 | in general the text between the markers stays and only the markers change |
| `SearchFence.CleanHitIsShown` | apps/orchestrator/search_view.py:91-101 | a hit without markers, line by line with its limits and placeholders |
| `SearchFence.HitStandsInBody` | apps/orchestrator/search_view.py:91-101 | every hit stands in the body under its number, on lines of its own, the earlier ones before it |
| `SearchFence.CleanLocalIsShown` | apps/orchestrator/search_view.py:120-131 | a local hit without markers, with its limits and placeholders |
| `SearchFence.RelevanceTells` | apps/orchestrator/search_view.py:104-117 | a relevance is shown with exactly two places |
| `SearchFence.AssembledIs` | apps/orchestrator/search_view.py:133-147 | the observation is its parts on lines of their own; without a search there is no external section |
| `SearchFence.BodyIsFree` | apps/orchestrator/search_view.py:91-101 | for arbitrary hits the joined body has neither marker |
| `SearchFence.FenceIsSealed` | apps/orchestrator/search_view.py:91-101 | in the block each marker stands exactly once, around the body |
| `SearchFence.LocalBodyHasNone` | apps/orchestrator/search_view.py:120-131 | whatever the local hits say, their lines have no marker |
| `SearchFence.ObservationSealedIff` | apps/orchestrator/search_view.py:133-147 | in the whole observation each marker stands exactly once, around the body, if and only if query, mode, profile and the host's fixed words have none |
| `SearchFence.QueryLineIff` | apps/orchestrator/search_view.py:76-88 | the query's header line has a marker exactly when the query has one: the query is not neutralised |
| `SearchFence.LocalGoesLast` | apps/orchestrator/search_view.py:169-187 | no local hit is dropped while a second external one is shown |
| `SearchFence.DroppedOnlyWhenNeeded` | apps/orchestrator/search_view.py:169-187 | an external hit is dropped only over the budget |
| `SearchFence.LocalDroppedOnlyWhenNeeded` | apps/orchestrator/search_view.py:169-187 | and so is a local one, with one external hit at most beside it |
| `SearchFence.ShownTells` | apps/orchestrator/search_view.py:160-187 | the first ten of each kind are shown exactly when they fit in 8000 bytes |
| `SearchFence.TailTells` | apps/orchestrator/search_view.py:180-187 | the mark below: given up, more than ten of a kind, or none |
| `SearchFence.Render` | apps/orchestrator/search_view.py:149-197 | the loop ends, drops whole hits, and the text fits the budget plus the cap mark unless it gave up |

## Left out

- Extraction of question terms, clauses and quotes, stop lists and regular expressions: lexical data; the searches are proved for every list of terms.
- Reading and parsing of journal files and corrupt JSON: the journal's states are the well-formed ones its own writes leave, which is what the crash results are about.
- Replay of audit events into the database and the wait between probes: neither writes the journal.
- The full admission list of the wake decision: one Boolean input, since the lane results hold for every value of it; the schedule timing and the pause are modelled.
- The eval-run series: the same acquire, marker, run, account, release order as the tick; its interleavings are those of the lane model.
- Idempotency keys of explorer actions, which a fresh turn id keeps from ever matching, and the texts of observations and audit records, which no gate reads.
- A session commit under a superseded snapshot, which also queues its new claims under the active one: it touches no claim that revocations can concern before.
- LinkRevocation.ClaimsOf: the order in which affected claims are cascaded is not modelled, since claims are independent of each other.
- Attempt counters, leases' owners and times, research questions and alerts of the reassessment worker: a step may happen at any time, so the results do not depend on them.
- CuratorBoundary.Boundary: detection of value duplicates, anchor lookups and the rules engine are inputs; the texts of refusal lines and digests are not modelled.
- The correction round that calls the boundary twice; its two flags are inputs.
- SearchFence.Render: the fixed words of the header's count line and of the two notes are arbitrary strings; masking of NUL characters and not-a-number relevances are not modelled.
- The session state machine: a finite table. The operator-stop path moves from STOPPING to VERIFYING (apps/orchestrator/orchestrator.py:977-992), which the table at apps/orchestrator/state_machine.py:22 forbids.
- Fenced commit, the gates and leases of an activation, offline rules, the web and research-proxy services: not part of this model.

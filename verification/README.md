# The life of an audit finding

A Dafny model of how Autodit finds, keeps and reviews audit findings, with
proofs about every run, every person and every crash.

An extraction delivers a population of payments, journal lines and approvals
with control totals. A submission freezes it together with the tenant's
parameters and released rule versions into a queued run. A worker takes the
oldest pending run under a lock on its source, checks the totals exactly,
stores a snapshot, generates candidates, scores them with released decision
models and reconciles the findings in one transaction. Auditors change the same
findings by dispositions, comments and versioned review cases. Beside this core
stand the validator of free decision graphs, the simple rule builder of the web
client, its results download, and the window of login attempts.

## How it is built

| part | modules |
|---|---|
| texts, identities, exact money, dates | `Common` `Strings` `Identity` `Decimals` `DecimalLaws` `Dates` |
| populations and tie-out | `Populations` `Reconciliation` `TieOutLaws` `Admission` |
| release guard and fixtures | `Rules` `RuleLaws` |
| candidates, scoring, one run's outcome | `Candidates` `CandidateLaws` `Analysis` `AnalysisLaws` `Raised` `Evidence` `Halts` `RunSteps` `ExampleRun` |
| finding states, review cases | `Lifecycle` `ReviewCase` `ReviewLaws` |
| the tables of findings, updated in place | `Ledger` `FindingLaws` `TenantStore` `RunLaws` `RunAnswers` `Histories` `Decisions` `Enrolment` `Reruns` |
| workers, locks, crashes | `SnapshotStore` `System` `SystemLaws` `Executions` `Submissions` `Schedules` `RunRecords` `Provenance` `Retries` `Finality` `LateFailures` `RunTables` `Pipeline` |
| decision-graph validator | `GraphNodes` `GraphShape` `GraphSearch` `DecisionGraph` `GraphAdmission` `BranchTwins` |
| rule builder | `ZenText` `Builder` `BuilderLaws` |
| graph comparison, restored conditions | `Json` `Collation` `GraphLogic` `KeyOrder` `SameLogic` `LogicOrder` `RestoreLaws` `BuilderKeys` `DiffIds` |
| download and login window | `Csv` `LoginWindow` |

Findings, cases and trails are tables; `Ledger.At` projects them on one finding
key, and every transaction is specified by a function on that projection. The
classes `TenantStore.Tenant`, `SnapshotStore.Store` and `RunTables.Database`
update the tables in place and are proved against those functions.
`System.Next` is the protocol of any number of workers as a transition system in
which each database transaction is one step; `Pipeline.Service` runs the code of
the worker and keeps its history an execution of that system, so the theorems of
`Executions`, `Retries`, `Finality`, `LateFailures` and `Histories` hold of it.

`Raised`, `Evidence`, `Halts`, `RunAnswers`, `Decisions`, `ReviewLaws`, `Enrolment`,
`Submissions`, `Schedules`, `RunRecords`, `Provenance`, `Admission`, `GraphAdmission`
and `DecimalLaws` say what the operations do by the fields of populations,
parameters, tables and histories alone, without the functions that specify them.

Where the code and its guides differ, the model follows the code:

* `docs/user/workflows-and-sources.md:3` asks for "a different person from the
  previous step". A return keeps the last actor, so for a middle step the rule
  can be evaded; `ReviewCase.DifferentActorKeptIffLast` says exactly when it holds.
* `docs/user/workflows-and-sources.md:7` says that changed evidence can reopen a
  closed case. `Histories.SystemReopenUnreachable` shows that it never does.
* Two connections or branches of a decision graph are told apart by texts joined
  with NUL bytes; `BranchTwins.HidesIffSameText` says exactly where that fails.
* The builder overwrites a condition whose id is `flag` or `reason`, or is shared;
  `BuilderLaws.CompiledFlags` says what the table then tests, and
  `BuilderLaws.BuilderPreservesMeaningIff` exactly when nothing is lost. The
  client draws ids at random, so its own lists have proper ids.
* `web/src/features/analysis/model.test.ts:34` wants a graph with a moved node and
  reordered keys to count as the same. `localeCompare` may equate different
  strings, and the sorts are stable, so it depends on the collation:
  `LogicOrder.OrderIsNothingIff` and `BuilderKeys.EditsRestoreIff` say exactly
  how. The comparison passes over a key `_diff`, so a condition of that id can
  come back changed: `DiffIds.RestoredMeansConditionsIff`.
* The failure record has no guard on the run's status and is written after the
  lock is gone, so a completed run can be marked as failed;
  `LateFailures.CompletedRunEndsStopped` is an execution that does, and
  `LateFailures.CompletedChangesIffRecording` says exactly when one can.

## Model

| member | source | states |
|---|---|---|
| `Identity.EntityIDInjective` | internal/domain/domain.go:37-41 | for valid identifiers, two entity ids agree exactly when the sources agree and the ids agree as multisets |
| `Identity.EntityIDUnordered` | internal/domain/domain.go:37-41 | the two ids of a pair may be given in either order |
| `Identity.ExceptionKeyInjective` | internal/domain/domain.go:32-34 | a finding key determines rule, entity, entity id and period |
| `Strings.JoinInjective` | internal/domain/domain.go:33 | a text joined from parts free of the separator determines the parts |
| `Strings.SortIgnoresOrder` | internal/domain/domain.go:38-40 | sorting forgets the order of the ids and nothing else |
| `Strings.Sort` | internal/domain/domain.go:38-39 | the private copy that is sorted has the same elements as the ids |
| `Decimals.ParseFixed4` | internal/domain/domain.go:44-53 | printing any amount to four places and parsing it again gives the same amount |
| `DecimalLaws.PlaceValue` | internal/domain/domain.go:48 | each digit of a text counts ten times the digit after it, and a digit alone is its distance from zero |
| `DecimalLaws.MoneyIsWorth` | internal/domain/domain.go:44-53 | up to sixteen digits and up to four decimals are worth all their digits read as one number, divided by ten for every decimal, with and without a minus sign |
| `DecimalLaws.MoneyAccepts` | internal/domain/domain.go:23 | exactly the texts of that shape are amounts |
| `DecimalLaws.TrailingZero` | internal/domain/domain.go:44-53 | a zero after the last decimal changes no amount |
| `DecimalLaws.MoneyReprints` | internal/analytics/analytics.go:78-81 | a money text that the database prints back with four places passes the same pattern with the same value |
| `Populations.Validate` | internal/domain/domain.go:164-193 | accepts exactly the populations with a valid header, valid rows and controls, no record identity twice and no control group twice |
| `Admission.RecordAdded` | internal/domain/domain.go:164-181 | a record may be added exactly if it is valid, there is room, and no record has its entity and id |
| `Admission.ControlAdded` | internal/domain/domain.go:182-192 | a further control may be added exactly if it is valid and no control has its entity and currency |
| `Admission.SmallestPopulation` | internal/domain/domain.go:164-168 | without records, exactly a valid source, a period that does not end before it starts, a reference and a control are needed |
| `Admission.PaymentAdmitted` | internal/domain/domain.go:96-141 | a payment needs a vendor, a currency, a date in the period and an amount above zero, and nothing else |
| `Admission.JournalAdmitted` | internal/domain/domain.go:96-141 | a journal line needs exactly one side above zero and the other zero |
| `Admission.ApprovalAdmitted` | internal/domain/domain.go:96-141 | an approval needs an amount of any sign and a limit that is not negative |
| `Admission.OtherEntitiesRefused` | internal/domain/domain.go:96-141 | every valid record is one of the three, with a reporting amount and currency, a rate above zero and a rate date |
| `Populations.TagInjective` | internal/domain/domain.go:169-182 | the joined text of entity and id, or of entity and currency, tells groups apart |
| `Reconciliation.TieOut` | internal/domain/domain.go:202-254 | returns the groups that do not match, in sorted order, from figures accumulated record by record |
| `Reconciliation.Accumulate` | internal/domain/domain.go:203-227 | after both loops the maps hold the expected controls and the actual figures |
| `Reconciliation.SortedKeys` | internal/domain/domain.go:228-232 | whatever order the map yields its keys in, the list has each group once, sorted |
| `Reconciliation.ActualIsTotals` | internal/domain/domain.go:209-227 | every accumulated figure is the exact count and the exact sums of its group, through any number of printings and parsings of partial sums |
| `TieOutLaws.TiesOutIff` | internal/domain/domain.go:202-254 | for a valid population the result is empty if and only if every group that a control or a record names has a control with equal count and exactly equal amount, debit and credit sums, and journal groups balance |
| `TieOutLaws.OneRecordTiesIff` | internal/domain/domain.go:202-254 | one record under one control of its group ties out exactly when the control counts one and has its amount, debit and credit, equal to each other in a journal |
| `TieOutLaws.DifferencesSay` | internal/domain/domain.go:228-253 | each difference is of a group that does not tie out, with its count and exact sums and its control, if it has one |
| `TieOutLaws.OrderIndependent` | internal/domain/domain.go:202-254 | records in any other order give the same result |
| `RunSteps.ValidateParameters` | internal/rules/rules.go:32-54 | accepts exactly the parameters with non-negative money thresholds, valid currencies, a ceiling in range and distinct weekdays |
| `Admission.ThresholdListed` | internal/rules/rules.go:38-43 | a threshold may be listed exactly for a currency and an amount that is not negative |
| `Admission.DayAdded` | internal/rules/rules.go:44-52 | a day may be added to the non-working days exactly once, from 0 to 6 |
| `Admission.SmallestParameters` | internal/rules/rules.go:32-54 | one day, a materiality that is not negative and a ceiling from 1 to 100000 are needed |
| `Rules.ValidateTable` | internal/rules/rules.go:116-158 | accepts exactly the two-row first-hit tables on `qualifies` with one output column for each of the three fields |
| `Rules.ValidateModel` | internal/rules/rules.go:90-172 | accepts exactly the models of three well-formed nodes with distinct ids whose two edges link input to table and table to output |
| `Rules.Simulate` | internal/storage/settings.go:103-122 | succeeds exactly when the guard accepts the model and the positive, negative and null fixtures decide as required |
| `RuleLaws.AcceptedIsPath` | internal/rules/rules.go:105-171 | an accepted model is exactly the path input, decision table, output, whatever the order of nodes and edges |
| `RuleLaws.ColumnsAreDistinct` | internal/rules/rules.go:132-158 | the input column and the three output columns of an accepted table have four different ids, although the guard never compares ids |
| `RuleLaws.AcceptedEvaluates` | internal/rules/rules.go:129-158 | an accepted model decides every value of `qualifies`, null, truth, number, text or structure, with a known severity and owner, and treats all values other than true alike |
| `RuleLaws.ReleasedFlagsQualifying` | internal/storage/settings.go:103-122 | a model passes the guard and the three fixtures if and only if the guard accepts it and, for every value of `qualifies`, it flags exactly the value true |
| `Candidates.Duplicates` | internal/analytics/analytics.go:66-96 | the loop returns what reading the limited rows in order gives, with the ceiling as a sentinel |
| `CandidateLaws.AllPairsSound` | internal/analytics/candidates.sql:4-14 | every row of the self-join is an ordered pair of two payments of the population that may be duplicates |
| `CandidateLaws.AllPairsComplete` | internal/analytics/candidates.sql:4-14 | every two payments that may be duplicates make a row |
| `CandidateLaws.AllPairsOnce` | internal/analytics/candidates.sql:10-15 | no two rows join the same two records |
| `Analysis.DuplicatesAllOrNothing` | internal/analytics/analytics.go:67-95 | every qualifying pair is returned, or the run halts with the ceiling error exactly when there are more of them than the ceiling: nothing is silently cut off |
| `Analysis.CandidatesDistinct` | internal/storage/pipeline.go:100-124 | all candidates of a run, over all tests, have pairwise different identities scoped to the source |
| `Candidates.ScoreAll` | internal/storage/pipeline.go:140-157 | the scoring loop with its per-rule counters gives the flagged candidates in order, or the first error |
| `Analysis.ScoreIsFilter` | internal/storage/pipeline.go:140-157 | scoring keeps exactly the flagged candidates, or halts with the ceiling error exactly when some rule flags more than the ceiling |
| `AnalysisLaws.ReadyRowsValid` | internal/storage/pipeline.go:140-169 | the rows of a run that reaches reconciliation have pairwise different finding keys of tested rules |
| `AnalysisLaws.FlaggedIffQualifies` | internal/storage/pipeline.go:100-157 | with released rule versions, a candidate raises its finding exactly when it qualifies |
| `Raised.TestedIff` | internal/storage/pipeline.go:101-111 | a rule is tested exactly when it is released and a control covers payments for AP-01, approvals for AP-02, journal entries for JE-01 |
| `Raised.ApprovalRaisedIff` | internal/analytics/analytics.go:54-58 | from record to finding: an approval is raised exactly when AP-02 is released, its amount exceeds its limit and reaches the threshold listed for its currency, or the materiality for unlisted US dollars |
| `Raised.JournalRaisedIff` | internal/analytics/analytics.go:41-53 | a journal line is raised exactly when JE-01 is released, it is posted on a configured non-working day and debit plus credit reaches that threshold |
| `Raised.UnpricedHaltsIff` | internal/rules/rules.go:56-66 | with valid parameters and population a run halts before its first stage exactly when some record has a currency that is neither listed nor US dollars under the plain materiality |
| `Evidence.ApprovalEvidence` | internal/analytics/analytics.go:35-60 | the row that raises an approval carries exactly its texts, its threshold and the qualification |
| `Evidence.JournalEvidence` | internal/analytics/analytics.go:35-60 | the row that raises a journal line carries exactly its texts, its threshold, the weekend and the qualification |
| `Evidence.DuplicateEvidence` | internal/analytics/analytics.go:72-94 | the row that raises two payments carries the texts of both, the smaller id first, and the printed amount |
| `Evidence.SuppressedApprovalStaysIff` | internal/exceptions/lifecycle.go:61-69 | end to end: a suppressed approval that is raised again stays suppressed exactly when the suppression has not expired and amount, currency, date and limit are the texts of the evidence; a new threshold alone does not reopen it |
| `Analysis.OverIff` | internal/storage/pipeline.go:152-156 | the ceiling is exceeded exactly when some rule has more rows of its own than it allows |
| `Halts.OutcomeIs` | internal/storage/pipeline.go:55-160 | exactly which payloads halt, with which error and at which stage, and that all others come to reconcile exactly the flagged candidates |
| `Halts.StoppedSaysWhy` | internal/storage/pipeline.go:216-234 | in every execution a run stopped for its totals does not tie out, and one stopped at the ceiling ties out and is over it |
| `Dates.DaysFollow` | internal/analytics/analytics.go:46-49 | the next date of the calendar has the next day number and the next weekday, for every date, counted from a Saturday on 1 August 2026 |
| `Dates.NumbersInOrder` | internal/analytics/candidates.sql:11 | day numbers are in calendar order and tell dates apart, so differences of days are those of the calendar |
| `Dates.DateTextReads` | internal/analytics/candidates.sql:11 | the text of every date with a four-digit year reads as the number of that date |
| `Dates.ReadDateIs` | internal/analytics/candidates.sql:11 | and no other text reads as a date |
| `Raised.DuplicateRaisedIff` | internal/analytics/analytics.go:66-96 | two payments are raised exactly when AP-01 is released, neither is a reversal or intercompany, vendor, currency and exact amount agree, their dates are at most thirty days apart and the amount reaches the threshold, whichever comes first |
| `Lifecycle.LabelKnown` | internal/exceptions/lifecycle.go:12-22 | the eight texts that the states are stored under |
| `RunAnswers.FlaggedAnswers` | internal/exceptions/lifecycle.go:52-75 | after a run a flagged finding that is new is open, one that was resolved is reopened, open, reviewed and decided ones keep their state, and a suppressed one stays suppressed until it expires or the consumed fields change, and is reopened then |
| `RunAnswers.FlaggedRow` | internal/storage/pipeline.go:297-303 | the whole row of a new finding, and exactly what a run rewrites of a known one |
| `RunAnswers.FlaggedRecords` | internal/storage/pipeline.go:296-331 | the observation of a flagged row holds input, version, parameters, decision and what became of the finding; the trail has one row more exactly when the state changed, and what it says |
| `RunAnswers.UnflaggedAnswers` | internal/storage/pipeline.go:170-206 | a finding that is not flagged is resolved, with its trail row, exactly if it is active and in the tested source, period and rules; nothing else of it changes |
| `Decisions.DispositionSucceedsIff` | internal/storage/exceptions.go:78-111 | a disposition succeeds exactly from open or reopened to in review, or from in review to accepted, dismissed or suppressed, in the expected revision, without a case, with a reason, and with an expiry later than now for a suppression and none otherwise; then exactly state, expiry, revision and one trail row change, else nothing |
| `Decisions.CommentIff` | internal/storage/exceptions.go:114-129 | a comment takes some text and an existing finding, and adds exactly one row that leaves the state |
| `Strings.TrimSpaceTrims` | internal/storage/exceptions.go:98 | trimming takes white space off both ends, all of it and nothing else |
| `Decisions.TrailRowsAllowed` | internal/exceptions/lifecycle.go:34-75 | in every reachable state every row of every trail is one of the allowed moves: of a disposition, a comment, a closing or reopening of a case, or the system |
| `Decisions.PeopleDecide` | internal/exceptions/lifecycle.go:52-75 | no run decides a finding: the last row that changed the state of an accepted, dismissed or suppressed finding is a disposition or the closing of its case, and only a disposition suppresses |
| `Decisions.DecidedInReview` | internal/exceptions/lifecycle.go:34-43 | a disposition that decides comes after a row that put the finding in review, with nothing in between that takes it out |
| `Decisions.ClosedCaseNamesState` | internal/storage/workflows.go:216-229 | in every reachable state the finding of a closed case is in the state that the closing call named, whatever came since |
| `TenantStore.Tenant.LogEvent` | internal/storage/pipeline.go:320-331 | appends one row that continues the latest row of the same finding |
| `TenantStore.Tenant.Dispose` | internal/storage/exceptions.go:78-111 | changes one finding and its trail as the specification of a disposition says, or nothing at all |
| `TenantStore.Tenant.Comment` | internal/storage/exceptions.go:114-129 | appends one trail row that leaves the state as it is, or nothing |
| `TenantStore.Tenant.Decide` | internal/storage/workflows.go:173-236 | the local copies end as the step function of the review case says, or the call is refused with its error |
| `TenantStore.Tenant.ActOnCase` | internal/storage/workflows.go:144-253 | finding, case, trail and case history change together as specified, or not at all; an accepted assignment names a person with an enabled account and the role of the step |
| `TenantStore.Tenant.SaveWorkflow` | internal/storage/workflows.go:56-81 | publishes the next revision and enrols exactly the active findings that have no case |
| `TenantStore.Tenant.SyncCase` | internal/storage/workflows.go:82-96 | enrols a finding in the latest workflow; reopens a closed case of a reopened finding |
| `TenantStore.Tenant.Observe` | internal/storage/pipeline.go:272-318 | upserts one finding, its observation, event and case; fails exactly when the run observed the finding before |
| `TenantStore.Tenant.ObserveAll` | internal/storage/pipeline.go:162-169 | the observing loop fails exactly when a finding is flagged twice or was observed by the run before; else every flagged finding, and no other, is as observed |
| `TenantStore.Tenant.ResolveAbsent` | internal/storage/pipeline.go:170-206 | resolves exactly the active findings of one tested rule that were not seen |
| `TenantStore.Tenant.ReconcileRun` | internal/storage/pipeline.go:158-206 | both loops together do to every finding what the specification of a run says; a violated constraint rolls everything back |
| `FindingLaws.CommitKeepsOk` | internal/storage/pipeline.go:296-331 | every disposition, comment, case action, publication and run keeps every trail chained, every case the replay of its history, and finding and case in agreement |
| `FindingLaws.PutCommits` | internal/storage/exceptions.go:78-129 | a transaction on one finding leaves every other finding, with its trail and its case, as it was |
| `FindingLaws.SyncNeverReopens` | internal/storage/workflows.go:86-94 | when a run reopens a finding, its case is not closed |
| `RunLaws.RunReconciles` | internal/storage/pipeline.go:158-206 | after a run: every active finding in its scope was flagged, every flagged key has a finding that is not resolved, accepted and dismissed stand, and nothing outside source, period and rules is touched |
| `RunLaws.ObservedOncePerFinding` | internal/storage/pipeline.go:213 | the exception count is the number of different findings observed |
| `RunLaws.RerunChangesNothing` | internal/storage/pipeline.go:158-206 | the same evidence for the same rules again, in whatever versions, before any suppression expires, changes no state, adds no event and leaves every case as it is |
| `Reruns.SamePopulationChangesNothing` | internal/storage/pipeline.go:100-206 | two runs over one population, with the same parameters and any released versions of the same rules, before a suppression expires: the second one adds no finding, changes no state, adds no event and leaves every case as it is |
| `Reruns.SamePopulationAfterWork` | internal/storage/pipeline.go:158-206 | after any work of people in between, the second run changes the state of exactly the findings whose suppression has expired and of those that are active in its scope and not flagged, and adds an event if and only if there is one |
| `Reruns.LapsingWasReactivated` | internal/storage/pipeline.go:170-206 | such a finding, when it is not suppressed, was made active by people in between |
| `RunLaws.SuppressionReopensIff` | internal/storage/pipeline.go:276-296 | a suppressed finding that is flagged again reopens exactly when it has expired or a field other than materiality, qualifies and weekend changed |
| `RunLaws.ConsumedDiffers` | internal/storage/pipeline.go:278-286 | the consumed fields differ exactly when some field that policy does not decide differs |
| `Histories.TrailReplays` | internal/storage/pipeline.go:296-331 | in every reachable state a trail starts from the empty state, each row continues the state and the hash of the row before it, and the last row leaves the stored state |
| `Histories.HeadHashCommits` | internal/storage/pipeline.go:320-331 | equal head hashes if and only if equal whole histories |
| `Histories.EvidenceIsImmutable` | internal/storage/pipeline.go:297-303 | what identifies a finding and what was recorded when it was first seen is never rewritten, trails only grow, and every change of the row raises its revision, so that rows of one revision are the same |
| `Histories.SuppressionKept` | internal/exceptions/lifecycle.go:61-69 | over any history in which a finding stays suppressed, its expiry is set and expiry and consumed hash do not change |
| `Histories.CasesAreReviewed` | internal/storage/workflows.go:164-248 | in every reachable state the step is inside the pinned workflow, the revision counts the events, and a closed case has an accepted or dismissed finding and a completion of every step by a holder of its role |
| `Histories.SystemReopenUnreachable` | internal/storage/workflows.go:86-94 | no history of transactions ever takes the branch that reopens a closed case, although the guide promises that changed evidence can |
| `Enrolment.ActiveHaveCases` | internal/storage/workflows.go:72-96 | in every reachable state with a workflow every active finding has a case |
| `Enrolment.NewCasesAreLatest` | internal/storage/workflows.go:72-96 | a transaction that adds a case adds it in the latest workflow, at its first step and unassigned; a case that is there changes by calls only |
| `Enrolment.FlaggedHaveCases` | internal/storage/workflows.go:82-96 | after a run every flagged finding has a case, once there is a workflow |
| `Enrolment.EveryFindingWasObserved` | internal/storage/pipeline.go:297-318 | in every reachable state every finding was first seen by an observation under its key, of the run, rule version, parameters and input that its row records |
| `Enrolment.PinnedForEver` | internal/storage/workflows.go:56-81 | published workflows are never rewritten, and a case stays in the workflow it was opened in |
| `ReviewCase.Validate` | internal/storage/workflows.go:26-44 | accepts exactly the workflows of 2 to 20 distinctly named steps of known non-admin roles whose first step does not ask for a different actor |
| `Admission.StepAdded` | internal/storage/workflows.go:30-43 | a step may be added exactly to a valid workflow of fewer than twenty, with a name of its own and one of four roles |
| `Admission.SmallestWorkflow` | internal/storage/workflows.go:26-44 | two steps, the first for whoever holds its role, are enough and needed |
| `ReviewLaws.RowOfHistory` | internal/storage/workflows.go:164-248 | step, status, assignee, last actor and revision of a case are what its history says |
| `ReviewLaws.AcceptedIff` | internal/storage/workflows.go:164-236 | exactly which calls are accepted after a history: who may assign, return, advance and reopen, when an assignee binds, when a different person is asked for, and what resolution the last step takes |
| `ReviewLaws.CallSucceedsIff` | internal/storage/workflows.go:144-253 | a call takes effect exactly when the history admits it; the closing call gives the finding the state it names and clears its expiry, the reopening call puts it back in review, others leave it, and refused calls change nothing |
| `ReviewLaws.CaseRowsSay` | internal/storage/workflows.go:164-248 | in every reachable state every case row is what its history says |
| `ReviewCase.PositionCounts` | internal/storage/workflows.go:205-231 | the position is the number of advances less the number of returns since the latest opening |
| `ReviewCase.Accounting` | internal/storage/workflows.go:164-248 | after any accepted history the step is that position, inside the workflow, and the revision is one more than the number of events |
| `ReviewCase.StepsBelowCompleted` | internal/storage/workflows.go:201-231 | every step below the position was completed, since the latest opening, by a holder of its role |
| `ReviewCase.ClosedMeansReviewed` | internal/storage/workflows.go:201-229 | a case is closed only after every step was completed in its role, by an advance of the last step with a resolution; if that step asks for a different actor, the closer is not the author of the latest completion of the step before |
| `ReviewCase.ReturnAllowsSelfApproval` | internal/storage/workflows.go:205-215 | a concrete history, for any two people and any middle step, in which one person completes both of two adjacent steps after a return |
| `ReviewCase.DifferentActorKeptIffLast` | internal/storage/workflows.go:205-215 | a different person from the previous step is kept by all histories if and only if the step that asks for it is the last |
| `SnapshotStore.Store.WriteSnapshot` | internal/storage/objectstore/files.go:21-81 | no file is ever overwritten; success means the file under the returned name holds exactly the records; a racing writer of the same content is tolerated |
| `SnapshotStore.Store.ReadSnapshot` | internal/storage/objectstore/files.go:84-102 | gives the file only under its own tenant and only when it has the recorded hash; what a write has named is read back as exactly the records, by its tenant and nobody else |
| `SnapshotStore.SnapshotReads` | internal/storage/objectstore/files.go:44-102 | a file under the name of a snapshot, in a store of content-addressed files, reads back as the records it was named after, for its own tenant only |
| `RunSteps.CheckPayload` | internal/storage/pipeline.go:61-68 | succeeds exactly when parameters and population are valid and every currency has a materiality |
| `RunSteps.CheckTieOut` | internal/storage/pipeline.go:76-80 | succeeds exactly when the population ties out |
| `RunSteps.ReadScope` | internal/storage/pipeline.go:101-111 | the tested rules are the released ones whose entity some control covers |
| `RunSteps.ReadCandidates` | internal/storage/pipeline.go:100-124 | duplicate pairs first, then one candidate for each row whose rule is in scope |
| `RunTables.Database.Submit` | internal/storage/runs.go:19-94 | answers a known receipt with its run, refuses in the order of the checks, or freezes population, parameters and manifest into a queued run |
| `RunTables.Database.NextPending` | internal/storage/pipeline.go:27 | the oldest queued or running run, the smaller id first |
| `RunTables.Database.TryLock` | internal/storage/pipeline.go:34-41 | takes the lock unless another open transaction holds a run of the same source |
| `RunTables.Database.Progress` | internal/storage/pipeline.go:238-246 | a stage entry is its own transaction on run status and stage history |
| `RunTables.Database.Record` | internal/storage/pipeline.go:216-234 | a failure is recorded whatever the status of the run is by then |
| `RunTables.Database.Commit` | internal/storage/pipeline.go:158-214 | reconciliation, watermark, snapshot row, completion and count take effect together |
| `Submissions.SubmissionAnswered` | internal/storage/runs.go:19-94 | in every execution, by the runs there are: which submissions are refused and why, which are answered with the run that bears their receipt, and that the others, and no more, add one queued run that freezes population, parameters, hash and manifest of that moment |
| `Submissions.OnePeriodPerId` | internal/storage/runs.go:54-69 | all runs ever submitted for a period id have the same dates |
| `Submissions.PayloadIsFrozen` | internal/storage/runs.go:70-85 | whatever its status, a run still has the population, receipt and time of its submission and the parameters, hash and manifest of that moment |
| `Schedules.OldestFirst` | internal/storage/pipeline.go:27 | with any number of workers, a run does not commit before an older one has been over |
| `RunRecords.WatermarksAreLast` | internal/storage/pipeline.go:207-212 | in every execution the watermark of a source is its last committed run, and empty while none has committed |
| `RunRecords.ExceptionsAreCounted` | internal/storage/pipeline.go:213 | in every execution the exception count of a run is the number of its observations |
| `RunRecords.RowsShowStages` | internal/storage/pipeline.go:238-246 | in every execution a run shows the latest stage of its history, queued before the first, and is running only after it |
| `RunRecords.StagesInOrder` | internal/storage/pipeline.go:238-246 | the stage history of a committed run ends with all stages in their order, whatever earlier attempts left |
| `Pipeline.Service.Submit` | internal/storage/runs.go:19-94 | a submission is a step of the protocol |
| `Pipeline.Service.Stages` | internal/storage/pipeline.go:55-160 | the stages with the work between them end with the rows to reconcile, or with the error and stage the payload determines |
| `Pipeline.Service.Commit` | internal/storage/pipeline.go:158-214 | the unique constraints cannot fail at commit, and the commit is a step of the protocol |
| `Pipeline.Service.ProcessNext` | internal/storage/pipeline.go:20-236 | one call does nothing, or commits the reconciliation of one pending run, or leaves everything but status, stages and the snapshot file as it was and records exactly the error the payload determines; its history stays an execution of the protocol |
| `SystemLaws.StepKeeps` | internal/storage/pipeline.go:20-246 | every step of every worker, submission, person, configuration change and crash keeps locks exclusive, commits unrepeated, receipts one to one, snapshots stored and findings consistent |
| `Executions.ReachableInv` | internal/storage/pipeline.go:20-246 | the invariant holds in every state of every execution |
| `Executions.CommitsAtMostOnce` | internal/storage/pipeline.go:25-50 | with any number of workers, interleavings and crashes, no run commits twice, and what commits has tied out |
| `Executions.ReceiptAnswersOneRun` | internal/storage/runs.go:36-46 | every accepted submission of a receipt answers with the same run, the only one that bears it |
| `Executions.LandedAtMostOnce` | internal/storage/runs.go:36-88 | no two commits belong to the same landed file |
| `Executions.SnapshotsReplay` | internal/storage/objectstore/files.go:44-102 | the snapshot of a completed run reads back for ever after as exactly the population it was computed from, for its tenant and nobody else |
| `Executions.FindingsBehave` | internal/storage/pipeline.go:20-246 | the findings of every execution behave as a history of transactions, so all that is proved of histories holds of the system |
| `Executions.HaltsLeaveNoTrace` | internal/storage/pipeline.go:216-235 | any sequence of stages, halts, failure records and crashes leaves findings, trails, observations, cases, watermarks and snapshot rows as they were, and loses no file |
| `Provenance.ObservationsAreTraced` | internal/storage/pipeline.go:296-318 | in every execution every observation was made by a submitted and committed run whose population ties out, under the parameters and in the rule version that its submission froze |
| `Provenance.FindingsAreTraced` | internal/storage/pipeline.go:297-303 | in every execution the row of every finding records the submitted run that first saw it, whose population ties out, the frozen parameters and the version of its rule in the frozen manifest |
| `Retries.RetryGivesTheSame` | internal/storage/pipeline.go:20-236 | after any two sequences of attempts, halts, crashes, submissions and changes of settings from one state, the commit of the run gives the same findings, cases, observations, trails, watermarks and snapshot reference |
| `Retries.OutcomeStable` | internal/storage/runs.go:14-18 | what a run that can complete comes to does not change when rule versions are added |
| `Retries.RetryGivesTheSameForItsSource` | internal/storage/pipeline.go:34-41 | with runs of other sources committing in between, and people working on their findings, the commit still gives the same findings, cases and trails of its own source, observations, watermark and snapshot reference |
| `Retries.RetryGivesTheSameButForEnrolment` | internal/storage/pipeline.go:34-41 | with workflows published in between as well, findings, trails, case histories, observations, watermark and snapshot are the same, and so is every case that was there before |
| `Finality.TerminalIsFinal` | internal/storage/pipeline.go:44-50 | with one worker whose commits are acknowledged, a completed or stopped run stays as it is |
| `Finality.FinalWhenNobodyIsIn` | internal/storage/pipeline.go:216-235 | with any number of workers, a run that is over while no worker is in its main transaction or about to record its failure keeps its row for ever |
| `Finality.CompletedChangesIff` | internal/storage/pipeline.go:216-235 | some schedule still changes the row of a completed run if and only if some worker is in its main transaction or about to record its failure |
| `LateFailures.CompletedChangesIffRecording` | internal/storage/pipeline.go:216-235 | in every execution, some schedule still changes the row of a completed run if and only if some worker is about to record its failure |
| `LateFailures.CompletedRunEndsStopped` | internal/storage/pipeline.go:20-236 | an execution of two workers from fresh tables in which a completed run ends stopped, with its effects in place |
| `Finality.LateRecordStopsACompletedRun` | internal/storage/pipeline.go:216-235 | with two workers, a run that one commits while the other waits to record its failure ends stopped, with its effects in place |
| `ExampleRun.ExampleIsReady` | internal/storage/pipeline.go:55-160 | a concrete population and released model that pass every check and reach reconciliation |
| `ExampleRun.ExampleRaisesAFinding` | internal/storage/pipeline.go:55-206 | and, from fresh tables, its run leaves the finding of the approval over its limit |
| `GraphNodes.ValidateTable` | internal/analysis/graph.go:193-222 | accepts exactly the tables within the size limits with distinct column ids, named outputs and rules over known columns |
| `GraphNodes.ValidateExpressions` | internal/analysis/graph.go:56-69 | accepts exactly 1 to 200 expressions with distinct ids and names and values in range |
| `GraphNodes.ValidateSwitch` | internal/analysis/graph.go:84-104 | accepts exactly 1 to 32 statements with distinct ids, conditions and at most one default, and returns their ids |
| `GraphShape.CheckNodes` | internal/analysis/graph.go:39-108 | accepts exactly distinct well-formed nodes, and collects inputs, outputs and branches |
| `GraphShape.CheckEdges` | internal/analysis/graph.go:112-142 | accepts exactly distinct edges between existing nodes in the right direction through declared branches, and builds both adjacency maps |
| `GraphShape.CheckBranches` | internal/analysis/graph.go:143-149 | succeeds exactly when the text of every declared branch was used |
| `GraphSearch.Search.Visit` | internal/analysis/graph.go:150-170 | the three-colour search ends, and fails only when the input reaches a cycle; else the finished nodes are in an order that every edge goes down |
| `GraphSearch.Search.MarkAll` | internal/analysis/graph.go:171-184 | marks exactly the nodes that reach an output |
| `GraphSearch.WalksGoDown` | internal/analysis/graph.go:150-170 | in finishing order every walk goes strictly down |
| `DecisionGraph.ValidateModel` | internal/analysis/graph.go:24-191 | accepts exactly the well-shaped graphs that are acyclic, have one input and have every node on an input-to-output path; reports a cycle exactly when a well-shaped graph has one that the input reaches |
| `DecisionGraph.MaximalWalksEndAtOutputs` | internal/analysis/graph.go:150-189 | in an accepted graph every walk that cannot go on ends at an output, after at most one edge less than there are nodes |
| `DecisionGraph.OnlyOutputsEnd` | internal/analysis/graph.go:124-126 | the nodes of an accepted graph without an outgoing edge are exactly its outputs |
| `DecisionGraph.OnlyInputStarts` | internal/analysis/graph.go:124-126 | the only node of an accepted graph without an edge into it is its input |
| `GraphAdmission.EdgeAdded` | internal/analysis/graph.go:112-142 | an edge may be added exactly with an id of its own, between existing nodes, not out of an output nor into an input, through a declared branch of a switch and no branch otherwise, and no second time |
| `GraphAdmission.NodeAdded` | internal/analysis/graph.go:39-55 | a node may be added exactly with an id of its own of at most 256 bytes and content that fits its kind |
| `GraphAdmission.RuleAdded` | internal/analysis/graph.go:210-222 | a rule may be added to a table exactly up to 500, with cells under the columns of the table only |
| `GraphAdmission.InputAdded` | internal/analysis/graph.go:193-209 | an input column may be added exactly up to 200, with an id of its own |
| `GraphAdmission.SmallestTable` | internal/analysis/graph.go:193-222 | one named output column and one rule over it are enough and needed |
| `GraphAdmission.SmallestContents` | internal/analysis/graph.go:56-104 | the smallest switches, expression lists and sources: what their one statement, expression or text has to be |
| `GraphAdmission.StatementAdded` | internal/analysis/graph.go:84-104 | a statement may be added to a switch exactly up to 32, with an id of its own and a condition, or as the only default |
| `GraphAdmission.ExpressionAdded` | internal/analysis/graph.go:56-69 | an expression may be added exactly up to 200, with an id of its own |
| `GraphAdmission.ShapedSizes` | internal/analysis/graph.go:25-38 | the limits on size, nodes and edges, and the one input |
| `DecisionGraph.BranchesLeadOut` | internal/analysis/graph.go:132-149 | where no two declared branches have the same joined text, every declared branch of an accepted switch has an edge of its own from which an output is reached |
| `DecisionGraph.BranchHasEdgeOrTwin` | internal/analysis/graph.go:132-149 | without that condition, a declared branch without an edge shares its text with another declared branch that has one |
| `DecisionGraph.NulFreeTextsApart` | internal/analysis/graph.go:132-149 | identifiers without NUL bytes never give two branches the same joined text |
| `BranchTwins.HidesIffSameText` | internal/analysis/graph.go:132-149 | for any two different branches: some accepted graph declares both and has an edge through the first only, if and only if their joined texts are the same |
| `BranchTwins.NulHidesAnUnusedBranch` | internal/analysis/graph.go:132-149 | a concrete accepted graph, with NUL bytes in identifiers, whose declared branch has no edge |
| `ZenText.ZenStringDecodes` | web/src/features/analysis/model.ts:70-75 | reading the concatenation of unescaped literals gives back the string, for every string |
| `ZenText.FieldReads` | web/src/features/analysis/model.ts:99-103 | the field of an input refers to exactly the column it was made for |
| `Builder.ExpressionReads` | web/src/features/analysis/model.ts:51-66 | the cell of a condition that the form admits tests the condition's operator against its value |
| `Builder.CellsMean` | web/src/features/analysis/model.ts:51-66 | operator by operator and column type by column type, the test that a compiled cell makes |
| `BuilderLaws.CompiledFlags` | web/src/features/analysis/model.ts:95-145 | for all lists, even with shared or reserved ids: the table flags a row exactly when the list is not empty and the compiled test of every input holds |
| `BuilderLaws.BuilderPreservesMeaningIff` | web/src/features/analysis/model.ts:95-145 | every list the form accepts keeps its meaning, for all engines and rows, if and only if the tests of the compiled inputs on their columns are the tests the conditions state on theirs |
| `BuilderLaws.BuilderPreservesMeaning` | web/src/features/analysis/model.ts:95-145 | with unique ids that name no output column, the table flags a row exactly when the list is not empty and every condition holds |
| `BuilderLaws.SingleConditionIff` | web/src/features/analysis/model.ts:104-136 | a single condition keeps its meaning for every engine and row if and only if its id names no output column or that column's cell tests the same |
| `BuilderLaws.SharedIdLosesATest` | web/src/features/analysis/model.ts:104-106 | two conditions that share an id are both tested as the later one |
| `BuilderLaws.SharedIdIff` | web/src/features/analysis/model.ts:104-106 | two conditions that share an id keep their meaning if and only if they make the same test |
| `Json.PrintInjective` | web/src/features/analysis/model.ts:217-248 | two values print as the same text if and only if they are equal |
| `Collation.SortForgetsOrderIff` | web/src/features/analysis/model.ts:200-201 | under any collation, sorting a list by its keys forgets its order if and only if the keys that are equated belong to equal members |
| `GraphLogic.CanonIffMean` | web/src/features/analysis/model.ts:194-204 | under any collation, values with equal canonical forms mean the same, with objects as maps from their kept keys; the converse holds where the collation tells the keys of every object apart |
| `KeyOrder.OrderForgottenIff` | web/src/features/analysis/model.ts:194-204 | all values that mean the same have one canonical form if and only if the collation tells the keys of every object in them apart |
| `SameLogic.FilledIs` | web/src/features/analysis/model.ts:227-233 | a table's four defaulted keys have their own value or the default, every other key is untouched |
| `SameLogic.SameLogicIff` | web/src/features/analysis/model.ts:193-249 | under any collation, only graphs with the same nodes and the same edges, in what they mean, are equated; all such graphs are, where the collation tells apart what has to be told |
| `LogicOrder.OrderIsNothingIff` | web/src/features/analysis/model.ts:193-249 | all graphs that mean the same as a graph are equated with it if and only if the collation tells apart the keys in its contents, and different nodes and edges by their ids and texts |
| `LogicOrder.UniqueIdsTold` | web/src/features/analysis/model.ts:200-246 | under a collation that equates equal strings only, unique node ids are all it takes |
| `LogicOrder.ByteOrderSameLogicIff` | web/src/features/analysis/model.ts:193-249 | byte order is such a collation: under it graphs with unique node ids are equated exactly when they mean the same |
| `SameLogic.RepeatedIdsKeepTheirOrder` | web/src/features/analysis/model.ts:237 | two nodes whose ids are the same, or equated by the collation, may be exchanged only if they mean the same |
| `KeyOrder.KeyOrderIsNothing` | web/src/features/analysis/model.ts:200 | every reordering of the keys of an object changes nothing if and only if the collation equates no two kept keys |
| `SameLogic.DiffIsNothing` | web/src/features/analysis/model.ts:199 | a `_diff` field and an undefined field change nothing, in the meaning and in the canonical form |
| `SameLogic.DefaultIsNothing` | web/src/features/analysis/model.ts:229-232 | writing a table default out changes nothing |
| `RestoreLaws.RestoresIff` | web/src/features/analysis/model.ts:168-191 | under any collation, conditions come back only if they are recorded, each is restorable, and they compile to the nodes and edges of the graph; and then they do, where the collation tells the compiled graph apart |
| `RestoreLaws.EditsRestore` | web/src/features/analysis/model.ts:168-191 | every edit that keeps the meaning of nodes and edges gives the original conditions back if and only if the collation tells the compiled graph apart |
| `BuilderKeys.EditsRestoreIff` | web/src/features/analysis/model.ts:104-133 | where a collation tells the builder's own words apart, that is: if and only if it tells the condition ids apart from each other and from the other keys of a rule |
| `BuilderKeys.TwoSpellingsLoseConditions` | web/src/features/analysis/model.ts:200 | under a collation that equates the two spellings of an accented letter, two conditions with those ids do not come back from an edit that only changes an order |
| `RestoreLaws.RestoredMeansConditions` | web/src/features/analysis/model.ts:168-191 | a graph that gives conditions back, however it was edited, flags a row exactly when there are conditions and all hold, if the builder keeps their meaning and no id is `_diff` |
| `DiffIds.RestoredMeansConditionsIff` | web/src/features/analysis/model.ts:168-199 | every graph that gives an accepted list back flags what the list says, for all engines and rows, if and only if no id is `_diff` and the compiled inputs make the tests that the conditions state |
| `DiffIds.ProperIdsTrustedIff` | web/src/features/analysis/model.ts:168-199 | with unique ids that name no output column, if and only if none of them is `_diff` |
| `DiffIds.DiffIdLosesACondition` | web/src/features/analysis/model.ts:199 | a concrete analysis with a condition of id `_diff` whose cell was blanked: the condition comes back, and the graph flags every row |
| `Csv.DownloadReadsBack` | web/src/features/analysis/model.ts:280-303 | a reader for section 2 of RFC 4180 gets back exactly the matrix of cell texts, whatever quotes, commas and line breaks they contain |
| `Csv.DownloadCells` | web/src/features/analysis/model.ts:292-303 | the reader finds the column names in the first record and, in one record for each result in order, its number, each input under its column, whether it was flagged, its result and its error |
| `Csv.ApostropheExactly` | web/src/features/analysis/model.ts:285-290 | an apostrophe is put before exactly the strings that start with one of the six characters, so no exported string starts with one |
| `Csv.SameExportIff` | web/src/features/analysis/model.ts:285-290 | exactly which two strings are exported alike |
| `LoginWindow.Manager.Permit` | internal/auth/local.go:17-38 | permits exactly when the live window of the key counts fewer than eight and fewer than a thousand windows are live; the calls so far stay a history that the map replays |
| `LoginWindow.Manager.Succeed` | internal/auth/local.go:69-71 | forgets the key and nothing else |
| `LoginWindow.Bounded` | internal/auth/local.go:26-37 | the map never exceeds a thousand entries, over any history of calls |
| `LoginWindow.SuccessForgets` | internal/auth/local.go:69-71 | over any history a successful login gives its key a fresh start, and no other |
| `LoginWindow.RefusedIff` | internal/auth/local.go:17-38 | over any history, an attempt is refused exactly when the open window of its key has counted eight, or a thousand keys have an open window |
| `LoginWindow.WindowHoldsEight` | internal/auth/local.go:29-37 | an entry counts exactly the attempts permitted since the call that opened its window: at most eight |
| `LoginWindow.AtMostFifteen` | internal/auth/local.go:17-38 | in any half-open interval of five minutes without a successful login at most fifteen attempts of a key are permitted |
| `LoginWindow.FifteenIsReached` | internal/auth/local.go:17-38 | fifteen do happen |

## Left out

* PostgreSQL, row-level security, SQL text and JSON decoding: tables are maps and sequences, a transaction is one step, and content arrives decoded or is refused. Rows of the audit log and `last_landed_at` are not kept.
* SHA-256 is taken to be collision-free: a digest is what it was computed from. Identifiers drawn at random are natural numbers that are not in use; an event's id is its number within its finding. Event times have microseconds already.
* Run ids are compared as numbers when two runs were created at the same time. The differences recorded with a failed tie-out are not kept. The order in which a query without `order by` yields rows is immaterial to what is proved.
* The ZEN engine: decision tables are evaluated first hit, comparisons are a given predicate, and in the builder a cell that is not a test does not hold. Traces, limits of the worker process and `rules.Evaluate` are not part of this model.
* Parquet, directories and `fsync`: encoding is a function of the records and a file appears in one step.
* Reading extracts, workbooks and databases; the conversion of analysis datasets; HTTP, cookies, OIDC, passwords and the directory of accounts beyond roles and the enabled flag.
* Revision counters of settings, saved analyses and accounts, and the last-administrator check: facts of one step each.
* Text is a sequence of bytes or of JavaScript code units, and white space is the ASCII kind.
* `localeCompare` is a parameter, any total preorder on strings. Arrays with undefined items are not modelled, and keys that are array indices, which JavaScript lists before the others, are listed like the others. The text of the input schema is a parameter.
* The matrix of a download starts from values already rendered by `cell`; the browser's part is left out. The reader admits any character inside quotes, where the standard's grammar lists printable ASCII.
* The clock of the login window does not go back and is read once per call, which `LoginWindow.AtMostFifteen` rests on; the code reads it once for each entry it looks through and once more to open a window (`internal/auth/local.go:23-33`).
- Finality.TerminalIsFinal: for one worker only; for several it is false, as `LateFailures.CompletedRunEndsStopped` shows, and `LateFailures.CompletedChangesIffRecording` gives the condition for completed runs.
- Retries.RetryGivesTheSameForItsSource: no workflow is published in between, because a publication enrols findings of every source; `Retries.RetryGivesTheSameButForEnrolment` allows it and says what is still the same.
- Pipeline.Service.ProcessNext: one call without interruption and with an acknowledged commit; interruptions, lost acknowledgements and other workers are steps of `System`, and the service's other methods take those steps one by one.
- RestoreLaws.RestoredMeansConditions: where no condition id is `_diff` and the builder keeps the meaning of the list; elsewhere it is false, as `DiffIds.RestoredMeansConditionsIff` shows.
- DecisionGraph.BranchesLeadOut: where declared branches have different joined texts; elsewhere it can fail, as `BranchTwins.HidesIffSameText` shows.

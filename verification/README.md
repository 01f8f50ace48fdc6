# metabasis: a verified model of reconciliation

metabasis keeps Entra group membership in step with time-bounded intents. Webhooks
deliver intents; a reconciler reads a subject's intents, derives what its matching
rule asserts for the present aggregate state, and writes group memberships. Rows in
PostgreSQL serve as a cache of "this subject is right until T".

This project models that machinery in Dafny and proves what it guarantees:

- **The cache is exact.** After every history of deliveries, runs, recorded failures,
  cancellations, lost sessions and foreign edits, a row without a retry time describes
  precisely the intents stored now. While it is not due, the aggregate state is the one
  that was last planned for (`Coherence`). Every recorded outcome, failure included,
  leaves the first boundary after its attempt in the row, so that a backoff never hides
  one, as long as the run had read the intents (`Outcomes`).
- **Not due means applied.** As long as nobody else wrote the user's groups, a subject
  whose row is unmarked and not due has exactly the memberships that are asserted at
  this instant (`Coherence.NotDueMeansApplied`). `Undisturbed` replaces "nobody else"
  by conditions on the history: no session is lost, nobody edits the groups of the
  users concerned outside, the subjects that come up have users of their own, and rule
  selection is stable. Without these conditions it is false of the code:
  `Counterexamples` gives three histories, with a lost session, a shared user and a
  changed rule. `Exactness` says exactly when it fails: a write to the user of a clean
  subject breaks it if and only if it adds a group the present goal forbids or removes
  one it demands, such a write is never that of a live, current run on the subject
  under the rule of its last success, and over whole histories a clean row is
  contradicted if and only if the history harmed its subject and nothing mended it.
- **Nothing is lost or stuck.** Intents never change hands without marking both
  subjects due in the same commit, although the previous subject is read before its
  lock is taken; due subjects stay due until an outcome is recorded. A wake-up is lost
  exactly when a listing fails for a subject with no wake left in the channel and
  nothing wakes the loop since. With a pool of one connection nobody can block anybody,
  whatever the lock keys; with a larger pool nobody can if the keys in play differ; and
  if the identity keys of two intents equal each other's subject keys, a state in which
  only giving up is left is always reachable. Where nobody can be blocked, rule
  conditions evaluate and subjects have users of their own, there is from every
  reachable state a schedule without failures after which no subject is due and every
  goal is met (`Recovery`).
- **Event-driven time is as good as continuous time**, plans do not depend on the order
  of intents, a preview equals the plan that follows the real delivery, one complete
  apply is a fixed point, and an interrupted one leaves exactly the rest.
- **Configuration**: validation accepts exactly the consistent policies, and the
  in-place merge of YAML documents computes the recursive overlay.

## Files

| file | what it models |
|---|---|
| `Common.dfy`, `Ordering.dfy` | Option and Result; string order, sorting, compaction |
| `Intents.dfy`, `Timeline.dfy` | intents, phases, boundaries, wakes |
| `Policy.dfy`, `Aliases.dfy` | rules and their validation; group aliases and their inverse |
| `Planner.dfy`, `Convergence.dfy` | building a plan; what applying plans does to group IDs |
| `Backoff.dfy` | retry delays in 64-bit durations |
| `Store.dfy`, `Database.dfy` | the tables as values and what each statement does; the store as an object |
| `Preview.dfy` | planning an event without writing |
| `Reconciliation.dfy`, `Reporting.dfy` | one reconciliation attempt as code that fails anywhere; its accounting |
| `Protocol.dfy` | the concurrent system as a state machine |
| `ProtocolInvariant.dfy`, `Coherence.dfy`, `Undisturbed.dfy` | its invariant and the main results |
| `Outcomes.dfy` | what commits and recorded outcomes leave in a row, told from the history |
| `Exactness.dfy` | exactly when a clean row is wrong about the directory |
| `Progress.dfy`, `Deadlock.dfy` | deadlock freedom, that pending work finishes, and the collisions that block it |
| `Scenarios.dfy`, `Counterexamples.dfy` | complete deliveries and runs put together; concrete histories |
| `Recovery.dfy` | from every reachable state back to one where everything is as asserted |
| `Refinement.dfy` | the attempt as code and the run of the protocol are one |
| `Scheduler.dfy` | the loop, its timer and the wake channel around the protocol |
| `FailedStart.dfy` | what a failed first listing costs |
| `Overlay.dfy`, `OverlayInPlace.dfy` | merging YAML trees, as values and on the heap |

The imperative code refines the state machine (`Refinement.AttemptIsARun`): whatever
calls fail, an attempt ends with the tables and groups that some run of the protocol
ends with. They meet in the same functions: what a protocol step does to the tables
(`Upserted`, `Succeeded`, `Failed`) is what the methods of `Database.Database` are
proved to do, a run plans `OpsFor`, which `Convergence.OpsForIsThePlan` ties to
`Planner.Build`, and retry times come from `Delay`, which `Backoff.RetryDelay` computes.

Each statement sent to PostgreSQL is one atomic step; transaction locks are released
at commit or rollback, session locks when the session ends. Time is one integer clock
that never goes back. CEL conditions are uninterpreted functions of the resolved user
that may fail; the name pattern, the compiler and the directory's answers are
parameters.

Where the code differs from what is written about it:

- The repository's README says that webhook updates and reconciliation are serialized
  per subject by advisory locks. That holds for the tables, but a run whose session has
  died goes on writing to the directory without the lock
  (`Counterexamples.LostSessionContradicts`).
- `ReconcileAll` is described as reconciling every subject with an accepted intent, and
  the loop starts with it. If that first listing fails the loop does not come back to
  it: later listings contain the due subjects only (`FailedStart.FailedStartSkips`).
- `ListSubjects` is described as listing every subject that has an accepted intent. It
  also lists subjects without intents whose row has a transition or retry time
  (`KnownSubjects`).

## Model

| member | source | states |
|---|---|---|
| Coherence.NotDueMeansApplied | internal/reconcile/service.go:104-159 | over every history: an unmarked row that is not due, of an undisturbed subject, means the user satisfies the goal for the current aggregate state and a fresh plan under the same rule is empty |
| Coherence.UnmarkedRowIsExact | internal/store/store.go:388-405 | over every history: a row without a retry time has stored intents equal to those its last success read, and its next transition is their earliest boundary after that success |
| Coherence.CacheCoherence | internal/store/store.go:315-329 | at any time since the last success, an unmarked subject that is not listed as due has the aggregate state that was planned then |
| Coherence.NoStaleSuccess | internal/reconcile/service.go:154-159 | a run that may record success holds the intents stored now, so no stale run clears a newer mark |
| Coherence.GainOrLossMarks | internal/store/store.go:148-203 | whatever deliveries interleave, a step that changes a subject's intents is a commit that leaves it marked and due, although the commit marks the previous subject it read before it waited for the subject locks |
| Coherence.IntentsHaveRows | internal/store/store.go:188-198 | over every history, every subject with an intent has a state row |
| Coherence.DueUntilRecorded | internal/store/store.go:315-329 | a due subject stays due through any steps until a run records an outcome for it |
| Coherence.FailuresCounted | internal/store/store.go:441-449 | the failure history equals a count over the recorded steps since the last recorded success |
| Coherence.BackoffIsExact | internal/reconcile/service.go:221-241 | over every history retry_count is the number of failures since the last success, and the k-th failure sets its retry min(initial * 2^(k-1), maximum) after the attempt |
| Outcomes.FailureLeavesBoundary | internal/reconcile/service.go:104-159 | over every history, for a run about to record a failure: the row is dated when the run began; if the run had read the intents, its next transition is the earliest boundary after that of the intents stored now, otherwise the row keeps its own; the retry comes one backoff delay per failure since the last success after that date |
| Outcomes.SuccessLeavesBoundary | internal/store/store.go:388-405 | over every history, for a run about to record a success: the row is dated when the run began, waits for the earliest boundary after that of the intents stored now, and has no retry, count or error |
| Outcomes.CommitMarksArrival | internal/store/store.go:148-203 | over every history, a commit marks the subject that gets the intent and the one that loses it with the time at which the handler accepted it |
| Outcomes.ShowsLastMessage | internal/store/store.go:388-454 | over every history a row shows the message of its subject's last recorded outcome, whatever deliveries came since |
| Outcomes.ErrorsAreCounted | internal/store/store.go:457-488 | the metric of failed subjects counts those whose last recorded outcome left a message |
| Undisturbed.AssertionsAreApplied | internal/reconcile/service.go:90-160 | with distinct users for the subjects that come up, stable rules, no lost session and no foreign edit of those users: every subject with an intent that is neither due nor waiting for a retry has exactly the memberships asserted at this instant |
| Undisturbed.KeepCalm | internal/reconcile/service.go:136-153 | under those conditions every step keeps all runs live and current, names only the given subjects and disturbs nobody |
| Exactness.WriteContradictsIff | internal/reconcile/service.go:136-153 | in every reachable state: a write to the user of a clean subject that has what is asserted makes its row wrong if and only if it adds a group the present goal forbids or removes one it demands |
| Exactness.OnlyIrregularRunsWrite | internal/reconcile/service.go:104-153 | such a write is never that of a run on the subject itself with a live session, a current view and the rule of the last success |
| Exactness.ContradictedIffHarmed | internal/reconcile/service.go:104-159 | over every history: a clean row is contradicted by the directory if and only if some step harmed its subject (a forbidden write, an edit that the goal excludes, or a success recorded against an unmet goal) and no later step mended it |
| Exactness.OnlySpoiledSuccessHarms | internal/reconcile/service.go:127-159 | a run whose resolved view is current never records a success against an unmet goal |
| Counterexamples.LostSessionContradicts | internal/store/store.go:207-249 | a history with a lost session, without outside edits and with a user for each subject ends with a clean row whose user contradicts the assertions |
| Counterexamples.SharedUserContradicts | internal/graph/client.go:60-77 | without outside edits or lost sessions, two subjects that name one directory user undo each other's writes while both rows are clean |
| Counterexamples.ChangedRuleContradicts | internal/planner/planner.go:59-70 | without outside edits, lost sessions or shared users, a run under another rule, cancelled after its writes and before its record, leaves the row clean and the user contradicting the rule that the row's success was planned for |
| ProtocolInvariant.KeepMutex | internal/store/store.go:148-221 | no step lets two processes hold locks of one key |
| ProtocolInvariant.CommitHolds | internal/store/store.go:148-175 | at commit a delivery holds its identity lock and the lock of every subject it changes |
| ProtocolInvariant.CapturedIsCurrent | internal/store/store.go:158-199 | the previous subject that a delivery read under its identity lock is still the stored one when it commits, so the commit has the effect of one on the tables of that instant |
| ProtocolInvariant.OthersViews | internal/store/store.go:148-249 | a step leaves the data that other processes' locks protect as it was |
| ProtocolInvariant.KeepProcs | internal/reconcile/service.go:104-159 | what live runs and deliveries have read stays true at every step |
| ProtocolInvariant.KeepTables | internal/store/store.go:388-454 | every step keeps every row right about last success, count and retry time, and an unmarked row right about intents and next transition |
| ProtocolInvariant.RegularRunHasNothingToDo | internal/reconcile/service.go:127-153 | a regular run on a subject that is quiet and undisturbed has no write left |
| ProtocolInvariant.KeepDirectory | internal/reconcile/service.go:136-153 | every step keeps the groups of quiet, undisturbed subjects as their last success established |
| ProtocolInvariant.InvAlways | internal/reconcile/service.go:90-160 | the invariant holds after every run of the system |
| Progress.SomeoneCanStep | internal/store/store.go:148-221 | deadlock freedom: with a connection and distinct keys for the names in play some unfinished process can take a step that is neither failure nor cancellation |
| Progress.OneConnectionNeverBlocks | internal/store/store.go:142-221 | deadlock freedom for every hash function: with a pool of one connection some unfinished process can take a step that is neither failure nor cancellation |
| Deadlock.CrossingKeysDeadlock | internal/store/store.go:148-175 | for every hash function and every pool of at least two connections: two intents whose identity keys equal each other's subject keys can be delivered, without failures, into a state in which no process has a forward step; both deliveries can still be aborted |
| Progress.HeldPrecedesWanted | internal/store/store.go:166-175 | a process waits only for locks later than all it holds: identity first, then subjects in strictly increasing order |
| Progress.ForwardShrinks | internal/reconcile/service.go:104-159 | every forward step strictly reduces the work left, so forward steps end in any order |
| Progress.EverythingFinishes | internal/reconcile/service.go:104-159 | from every reachable state all pending deliveries and runs can finish without a failure, if the pool has one connection or the lock keys that can come up differ |
| Recovery.EverythingIsServed | internal/reconcile/service.go:90-160 | from every reachable state a schedule without failures, in which no time passes, ends with all processes finished, no subject due, and every subject with an intent having exactly what its rule asserts now |
| Scheduler.NoLostWakeUp | cmd/metabasis/loop.go:17-48 | once its handler has sent, a marked subject that was neither listed nor recorded since has a token, a pending listing, or a query that will contain it, if and only if it is not among the subjects passed over |
| Scheduler.NothingMissed | internal/reconcile/service.go:79-87 | without failed listings no subject is ever passed over |
| Scheduler.WakeSurvivesIffListed | internal/reconcile/service.go:79-87 | over every history of handlers, loop and protocol steps: such a subject will be listed if and only if no listing failed for it, with no wake left in the channel, since which nothing woke the loop |
| Scheduler.MissedIffPassedOver | internal/reconcile/service.go:79-87 | the subjects passed over are exactly those for which the events contain such a failed listing with nothing since that wakes the loop, lists, marks or records them |
| Scheduler.NothingForgotten | cmd/metabasis/loop.go:19-46 | a waiting subject is due at every instant, and the loop sleeps at most one poll interval |
| Scheduler.NeverSleepsThrough | cmd/metabasis/loop.go:20-46 | with exact timers no time that lay ahead at the wake query passes while the loop sleeps, and no sleep exceeds the poll interval |
| Scheduler.SleepsUntilWake | cmd/metabasis/loop.go:20-28 | the loop sleeps exactly to the end of the poll interval or to the first time ahead that the wake query saw, whichever is first |
| Scheduler.FirstListingIsComplete | cmd/metabasis/loop.go:17-18 | the first listing contains a subject if and only if it has an intent or a persisted time |
| Scheduler.LaterListingsAreDue | cmd/metabasis/loop.go:46-46 | every listing after the first, failed ones counted, contains exactly the subjects due at its time |
| Scheduler.FirstSuccessIsCompleteIff | internal/reconcile/service.go:67-87 | the first listing that succeeds contains every subject with an intent if and only if no listing failed before it or all of them are due anyway |
| FailedStart.FailedStartSkips | cmd/metabasis/loop.go:17-46 | for every configuration whose conditions evaluate, every poll interval and every ended intent there is a history in which the first successful listing leaves the intent's subject out |
| Scheduler.ArrivedIsListed | internal/store/store.go:305-329 | a listing that begins at or after a persisted time contains its subject |
| Scheduler.MetOnTime | cmd/metabasis/loop.go:19-46 | a time still persisted when the loop reads the subjects after a sleep is listed, and that sleep ended within one poll interval and, for a time the wake query saw ahead, no later than it or than the start of the sleep |
| Scheduler.WakesToList | cmd/metabasis/loop.go:27-46 | a loop that wakes lists before it sleeps again: without a listing it is still in the same sleep or about to list |
| Scheduler.ListKeepsWake | internal/httpapi/server.go:95-105 | a subject that a listing leaves out still has its wake in the channel |
| Scheduler.KeepWorldInv | cmd/metabasis/loop.go:17-48 | every event of handlers, loop and system keeps the wake and timer guarantees |
| Scheduler.WorldRunsTheProtocol | cmd/metabasis/loop.go:17-48 | every reachable world is a reachable state of the protocol |
| Store.ListedOrAwaited | internal/store/store.go:491-504 | every persisted time is either listed as due or bounds the next wake from above |
| Store.DueAreKnown | internal/store/store.go:305-329 | due subjects are among the listed subjects |
| Store.KnownExactly | internal/store/store.go:304-312 | ListSubjects lists a subject if and only if it has an intent, in whatever phase and whatever its row says, or its row has a transition or retry time |
| Store.DueExactly | internal/store/store.go:315-329 | ListSubjectsDue lists a subject if and only if its transition or retry has come, or it has an intent and no row |
| Store.NextWakeIsPersisted | internal/store/store.go:491-504 | the next wake lies ahead and is a transition or retry time of some row |
| Store.UpsertedIntents | internal/store/store.go:176-187 | after a delivery the named subject has the intent, no other subject has one of its identity, and everything else is as before |
| Store.UpsertLeavesOthers | internal/store/store.go:176-199 | subjects neither named nor left keep their intents and row |
| Store.UpsertMarksAffected | internal/store/store.go:188-199 | both affected subjects are marked at the delivery's time and due from then on |
| Store.UpsertKeepsOutcomes | internal/store/store.go:176-199 | a mark changes nothing but the retry time: attempt, success, error, count and transition stay, and a replaced intent keeps its creation time |
| Store.CapturedSubjectMatters | internal/store/store.go:158-199 | for any subject taken for the previous one: every subject whose intents the delivery changes is marked if and only if the subject that really held the intent, if any, is that one or the new one |
| Store.SuccessSchedules | internal/store/store.go:388-405 | after a success the subject is due exactly when its next transition arrives; others are unaffected |
| Store.FailureSchedules | internal/store/store.go:430-454 | after a failure the subject is due exactly at the retry time or the next transition, whichever is first; others are unaffected |
| Store.MetricsCountPhases | internal/store/store.go:457-488 | the four filters count the phases of PhaseAt and sum to the number of intents, and the due count is the size of the due listing |
| Store.UniqueSubjects | internal/store/store.go:525-540 | the non-empty values, each once, strictly sorted |
| Database.Database.UpsertIntent | internal/store/store.go:142-204 | all or nothing: the whole delivery exactly if none of its statements fails, the old tables otherwise |
| Database.Database.RecordSuccess | internal/store/store.go:388-405 | inserts or overwrites the row as a clean success and changes nothing else |
| Database.Database.RecordFailure | internal/store/store.go:430-454 | keeps the success time, counts up, and changes nothing else |
| Database.Database.ListIntents | internal/store/store.go:268-276 | every stored intent of the subject exactly once, ordered by source and ID |
| Database.Database.ListSubjects | internal/store/store.go:304-312 | the known subjects in strictly increasing order |
| Database.Database.ListSubjectsDue | internal/store/store.go:315-329 | the due subjects in strictly increasing order |
| Database.Database.NextWake | internal/store/store.go:491-504 | the earliest persisted transition or retry later than now |
| Reconciliation.ReconcileSubject | internal/reconcile/service.go:90-160 | which calls fail is an input, and decides how the attempt ends: the error is the first call that failed, and there is none only if nothing failed and a rule or none matched; the plan is the one Build gives for the directory's entry with the aliases held, the rule that matches first and the stored intents; tables and directory end exactly as the failures say, a failure being recorded unless the run was cancelled or the record refused; the report accounts for every write; other users are untouched; success means the matched rule's goal is met, a new plan is empty and the row is clean until the next boundary |
| Reconciliation.WritePlan | internal/reconcile/service.go:133-159 | from the plan on: the report carries the given plan, accounts for its writes up to the first that fails, and the outcome is recorded as the failures allow |
| Reconciliation.RecordOutcome | internal/reconcile/service.go:154-159 | the error is the failed write, else the failed record, else the failed close, else none; the tables hold what the failures say |
| Reconciliation.ApplyPlan | internal/reconcile/service.go:136-153 | writes are made in order, adds then removes, exactly up to the first that fails; the directory holds the completed ones, and the failed one if only its answer was lost |
| Reconciliation.PlannedAreWritable | internal/reconcile/service.go:136-147 | under validated policy every planned alias has exactly one group ID, so taking the first is safe |
| Reconciliation.FlawlessSucceeds | internal/reconcile/service.go:90-160 | with nothing going wrong an attempt on a known user succeeds, or reports the condition that failed to evaluate |
| Refinement.AttemptIsARun | internal/reconcile/service.go:90-160 | for every choice of failing calls and every end that the attempt's contract allows, a run of the protocol from the same state, with nobody else at work, ends with the same tables and groups |
| Reconciliation.RecordFailure | internal/reconcile/service.go:221-241 | records the failure with its backoff exactly if the run was not cancelled and the record not refused |
| Reconciliation.Directory.Resolve | internal/graph/client.go:60-99 | succeeds exactly if the entry and every batch are answered and the entry has an ID; the user is the entry with exactly the sorted aliases of the groups held |
| Reporting.OutstandingIsTheRest | cmd/metabasis/output.go:258-265 | completed, failed and not-attempted operations are together exactly the planned ones, in order |
| Reporting.FailedIsNext | internal/reconcile/service.go:136-153 | the failed operation is the first add not done or, with all adds done, the first remove not done |
| Reporting.Summarize | cmd/metabasis/output.go:165-183 | failed counts the results with an error, applied those without one that wrote something, the rest are unchanged; added and removed are sums over all results; without a wish to see all exactly the failed and applied ones are shown |
| Reporting.WriteOutstanding | cmd/metabasis/output.go:258-265 | one line for each planned group that neither completed nor failed, in order |
| Convergence.ApplyReachesFixedPoint | internal/reconcile/service.go:136-153 | for every validated policy and membership: after a complete apply every present target is held, no absent one is, all other group IDs are as before, and nothing is left to plan |
| Convergence.RetryPlansTheRest | internal/reconcile/service.go:133-153 | after k completed writes and one failed call the next plan for the same rule and state is exactly the remaining writes in order: all but the first k, or k + 1 if the failed call took effect |
| Convergence.RestIsPlanned | internal/planner/planner.go:100-114 | whatever prefix of a plan has been made, the next plan is the rest of it |
| Convergence.SatisfiedMeansNothingToDo | internal/planner/planner.go:100-114 | a plan is empty if and only if the goal is satisfied |
| Convergence.OpsForExact | internal/planner/planner.go:110-113 | with validated policy the planned writes are exactly the missing ones, each once |
| Convergence.ExactAfter | internal/reconcile/service.go:136-153 | after the first k writes exactly the remaining ones are missing |
| Convergence.CompleteApply | internal/reconcile/service.go:136-153 | making all missing writes satisfies the goal and touches no other group |
| Convergence.OpsForIsThePlan | internal/reconcile/service.go:136-147 | the writes of Build's plan for a resolved user are those of the group-level model |
| Convergence.GoalMeansAssertions | internal/planner/planner.go:101-114 | a goal's present and absent group IDs are those that the aliases stand for which the rule asserts for the time its intents are in: active, else pending, else settled, else nothing |
| Convergence.AcceptedGoalIsConsistent | internal/config/validate.go:236-250 | validated assertions never require and forbid one group ID |
| Planner.Build | internal/planner/planner.go:46-122 | the first failing condition, or a plan that asserts exactly the first matching rule's own active assertions if some intent is active, its pending ones if none is but some is pending, its settled ones if there are only others, and nothing without intents or match; with sorted phases, earliest boundary and membership changes |
| Planner.SelectRule | internal/planner/planner.go:59-70 | the first rule whose condition holds, unless an earlier condition fails to evaluate |
| Planner.FirstMatchUnique | internal/planner/planner.go:59-70 | there is only one such outcome |
| Planner.Survey | internal/planner/planner.go:72-89 | one phase per intent, the earliest boundary over all, and whether any is pending or active |
| Planner.SurveyedState | internal/planner/planner.go:91-99 | the flags yield the aggregate state: active over pending over settled, none without intents |
| Planner.PlannedReport | internal/planner/planner.go:50-120 | the plan names the rule, user and subject, reports source, ID and phase of every intent ordered by source and ID, and the earliest boundary ahead |
| Planner.PlannedChanges | internal/planner/planner.go:100-113 | the three group lists are the asserted and held aliases, strictly sorted; adds are the asserted aliases not held, removes the forbidden ones held, strictly sorted |
| Planner.PlanIgnoresOrder | internal/planner/planner.go:74-120 | listings of the same intents in any order give the same plan |
| Planner.Intersection | internal/planner/planner.go:124-132 | the elements of the left list that are in the right one, in order |
| Planner.Difference | internal/planner/planner.go:134-142 | the elements of the left list that are not in the right one, in order |
| Ordering.UniqueSortedMeaning | internal/planner/planner.go:144-148 | append, sort and compact give the same elements, strictly sorted |
| Ordering.StrLeMeaning | internal/planner/planner.go:115-120 | the order of sort.Strings: a prefix first, otherwise the smaller at the first difference |
| Ordering.SortedUnique | internal/planner/planner.go:115-120 | without ties there is only one sorted order, so an unstable sort will do |
| Preview.PreviewEqualsReality | internal/reconcile/service.go:163-193 | the plan of the overlaid listing equals the plan built after the delivery, for any listing order and also when the event moves from another subject |
| Preview.PlanEvent | internal/reconcile/service.go:163-193 | invalid event, with its first failing check, failed listing, failed resolution and failed condition are told apart in that order; otherwise the plan of the overlaid listing |
| Preview.OverlayEvent | internal/reconcile/service.go:173-183 | the event replaces the intent of its identity in place, or comes last |
| Preview.OverlaidMeaning | internal/reconcile/service.go:173-183 | the overlaid listing has exactly the other intents and the event, each once |
| Timeline.EventDrivenRefinesContinuous | internal/reconcile/service.go:243-253 | at every instant all phases and the aggregate state are those of the last wake |
| Timeline.QuietUntilNext | internal/intent/intent.go:58-81 | no phase changes before the next boundary |
| Timeline.ChangesAtNext | internal/intent/intent.go:72-81 | some intent's phase changes exactly at the next boundary |
| Timeline.WakesAreTheBoundaries | internal/reconcile/service.go:243-253 | waking from boundary to boundary visits every later boundary exactly once |
| Timeline.WakesIncrease | internal/reconcile/service.go:243-253 | wake times strictly increase |
| Timeline.WakeChainEndsSettled | internal/planner/planner.go:91-99 | at most two wakes per intent that is not cancelled, and a settled state for good afterwards |
| Timeline.NextTransitionIsEarliest | internal/intent/intent.go:72-81 | an intent's next transition is the earliest of its boundaries after now |
| Timeline.NextTransitionOf | internal/reconcile/service.go:243-253 | the loop finds the earliest boundary of all intents |
| Intents.Validate | internal/intent/intent.go:31-55 | trims the identifiers, accepts exactly the valid intents, on which no check fails, and otherwise reports the first check that fails |
| Intents.TrimCleans | internal/intent/intent.go:32-34 | trimming leaves no Unicode white space at the ends and is idempotent |
| Intents.TrimCutsSpace | internal/intent/intent.go:32-34 | trimming cuts white space off the two ends and nothing else |
| Backoff.RetryDelay | internal/reconcile/service.go:255-264 | min(initial * 2^n, maximum) without leaving 64 bits |
| Backoff.DelaysClimbToTheCap | internal/reconcile/service.go:255-264 | the first delay is initial, each next one twice the one before up to the maximum, and delays never shrink |
| Backoff.ValidateReconcile | internal/config/validate.go:260-268 | accepts exactly positive settings whose initial delay does not exceed the maximum, and tells the two faults apart |
| Policy.ValidateGroupAssertions | internal/config/validate.go:216-258 | accepts exactly the pairs whose aliases are known, single and of pairwise distinct groups; otherwise reports the first alias at fault and why |
| Policy.PassedMeansConsistent | internal/config/validate.go:221-255 | the loop's memory passes exactly the consistent prefixes |
| Policy.ScanFindsFirstFault | internal/config/validate.go:230-254 | scanning one side passes it all or stops at the first fault |
| Policy.ValidateRules | internal/config/validate.go:167-214 | accepts exactly the non-empty lists of acceptable rules with distinct names, returns one program per rule, and the accepted policy is a valid configuration, as the main results require; otherwise reports the first rule at fault and its first failing check |
| Policy.CheckRule | internal/config/validate.go:178-210 | one rule passes exactly if its name is new and well formed, its condition compiles, its assertions are consistent and it has some; otherwise the error is the first check that fails, down to the first alias at fault |
| Aliases.ResolveGroups | internal/graph/client.go:80-97 | in whatever order maps are visited and IDs batched, every configured ID is asked for once and the result is the sorted list of aliases held |
| Aliases.PrepareGroupAliases | internal/graph/client.go:177-192 | the exact inverse of the alias relation, all lists sorted without repetition |
| Aliases.CheckMemberGroups | internal/graph/client.go:120-135 | asks the full batches of twenty and the rest, in order, up to the first that is not answered; succeeds exactly if all are, with the member IDs among the list |
| Aliases.ListSet | internal/graph/client.go:194-201 | the keys of a map, strictly sorted |
| Overlay.MergeLooksUp | internal/config/load.go:143-158 | a key of one tree is taken over; of two values that are not both mappings the overlay's stays; two mappings are merged in turn |
| Overlay.MergedAt | internal/config/load.go:143-158 | at every depth, below mappings that both trees share: a value only one has is taken over, the overlay's replaces the base's unless both are mappings, and a mapping of both keeps the base's tag |
| Overlay.OverlayWins | internal/config/load.go:144-147 | unless both trees are mappings the merge is the overlay |
| Overlay.MergeKeepsOrder | internal/config/load.go:148-157 | base keys keep their order and new overlay keys follow in theirs |
| Overlay.MergeKeepsUnique | internal/config/load.go:143-158 | keys stay unique in every mapping at every depth |
| Overlay.MergeTwice | internal/config/load.go:143-158 | merging the same overlay twice equals merging it once |
| Overlay.RejectDuplicateKeys | internal/config/load.go:123-141 | accepts exactly the trees with unique keys in every mapping |
| OverlayInPlace.MergeNode | internal/config/load.go:143-158 | the recursion on mutable nodes ends, writes only nodes of the base tree, and leaves the heap holding the merged layout; unless both are mappings the base node becomes a copy of the overlay's, otherwise it keeps its tag and the front of its content |
| OverlayInPlace.MergedHoldsMerge | internal/config/load.go:143-158 | the merged layout holds the merge of the two trees |
| OverlayInPlace.MergedSeparate | internal/config/load.go:143-158 | sharing overlay nodes never makes a node occur twice in the merged tree |
| OverlayInPlace.MappingValue | internal/config/load.go:160-168 | the value node of the first key node with equal tag and text, or null if there is none |
| OverlayInPlace.MergeFragments | internal/config/load.go:28-44 | merging the documents in order into the first yields the left fold of the merges and disturbs no document before its turn |
| OverlayInPlace.LastDocumentWins | internal/config/load.go:28-44 | at a path of shared mappings, what the last document has there, other than a mapping, is what the merge of all documents has |

## Left out

- PostgreSQL, its drivers, migrations and SQL text: each statement is an atomic step on maps; query connections of listings and metrics take no place in the modelled pool.
- Refinement.AttemptIsARun: concerns an attempt by itself; that attempts and deliveries interleave step by step is the protocol's own claim about the code.
- Store.RecordSuccess and Store.RecordFailure without a session: the reconciler does not use them.
- SubjectSession as an object: its connection is the `live` and `run` part of a protocol run, and closing is the step `Close`.
- Database.Database.UpsertIntent: takes its locks in the protocol, not in the object; there the tables are used by one caller.
- Store.UpsertMarksAffected: retry counts are unbounded, while the column is a 32-bit integer.
- Reconciliation.ReconcileSubject: error texts are short stand-ins for the wrapped causes, and a failed close or record after another failure is not reported separately.
- Intents.Validate: works on a value and returns the trimmed one instead of writing through a receiver.
- Coherence.NotDueMeansApplied: says nothing about users whose groups were written by others since the last success; that is the subject of `Exactness`.
- Undisturbed.AssertionsAreApplied: gives conditions that suffice; the exact condition is `Exactness.ContradictedIffHarmed`. A resolution is the groups at its last moment, so a directory that answers with old data after a write is not modelled.
- Progress.EverythingFinishes: with more than one connection assumes distinct keys for the lock names that can come up; the hash functions themselves are not modelled.
- Deadlock.CrossingKeysDeadlock: PostgreSQL detects deadlocks among its locks and ends one of the waits with an error; in the model that is an abort, which may come at any time and is not counted as a forward step. Collisions other than a crossing of identity and subject keys have no statement of their own.
- Recovery.EverythingIsServed: assumes that rule conditions evaluate and that the subjects have users of their own; without these a run may fail or undo another.
- Scheduler.FirstListingIsComplete: holds of the first listing only; that a failed one is not repeated is how the code is, and `Scheduler.FirstSuccessIsCompleteIff` says exactly when it matters.
- Scheduler.NeverSleepsThrough: timers are exact and the clock is shared; skew between processes and the resolution of stored times are not modelled.
- Graph HTTP, tokens, paging and transitive membership; CEL; YAML parsing, aliases and anchors; environment substitution; URL, log level, webhook and database settings; bearer tokens and request bodies; Prometheus; terminal output: library behaviour or input and output without a deep property.

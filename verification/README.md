# Distant-water fishing operations: a verified model

The service plans fishing voyages, clears, departs, lands, closes and cancels them, takes catch
declarations, reviews anomalies, hands catches over, and runs two job queues. This project models
those commands over the service's tables and proves what ties the tables together in every state
of every run. No single function of the service states that; it is spread over the services, the
worker and the schema's UNIQUE constraints.

## How it is laid out

- `Basics`, `Selection`, `Domain`: results, string order, sums over maps; `ORDER BY ... LIMIT`; the
  rows and their own rules.
- `Commands`: each command as a function from one store to its outcome: `Commit` with the new
  store, or `Refuse` with the store untouched.
- `Records`, `Storage`, `PlanningService`, `VoyageService`, `ReviewService`, `CatalogService`,
  `WorkerService`: the same commands as the services carry them out, with their loops, row
  records changed in place, versioned updates and rollback. Each method is proved to end exactly
  as its function says. `Server` joins them: whatever is called, the store passes through a run.
- `Answers`, `Deeds`, `Conduct`: the law of every command on the columns of the store, free of the functions
  that compute it: who may ask, which demand not met gives which error, and what a commit leaves in which
  rows. `Conduct.EveryStepIsLawful` says that no run takes any other step. `StateTables`, `Texts`: the state
  tables edge by edge, and what trimming, codes and decoding come to.
- `Invariants`; `Planning`, `Mooring`, `Quarantine`, `Accounts`, `Frames`, `Preservation`, `Runs`: the
  invariant, its preservation by each command, and its lifting to every run.
- `Lives`, `Milestones`, `Closure`, `Books`, `Readiness`, `Progress`, `Handoffs`, `Outbox`, `Deliveries`, `Replays`,
  `Histories`, `Reverification`, `Finishing`: the results about whole runs.
- `FleetRace`: planning, transitions and maintenance on stale rows, stopped only by version predicates.
- `Leases`, `SlotPermits`, `EventBatches`: the lease queue, slot permits and event batches of
  internal/runtimeops, as classes and as runs, each class lifted to its runs, and
  `RuntimeAnswers`, their calls on the columns. `Timestamps`, `StoredTimes`: the stored
  timestamp text, and the queries that compare it.

## Where the code and its promises differ

- The fishing service's own README.md, line 36, gives the vessel's life as berthed, sea_ready, assigned, at_sea,
  landed, so verification is for a berthed vessel. `VerifyFishingVessel` only asks the vessel table for
  `sea_ready`, and the table lets an *assigned* vessel go there. Such a call commits and leaves the
  voyage with a vessel that can neither depart nor be released: departure and cancellation are
  refused for good. So "planned means all vessels assigned" and "departing and cancelling always
  commit before the deadline" are false of the code. `Reverification.StrandingHappens` is a run where
  it happens, `Lives.StrandedForever` says it never mends, `Runs.LockstepIff` says exactly which runs
  stay in lockstep (those that never verify an assigned vessel), `Progress.NobodyIsHeldUp` says
  exactly when each move commits, and `Finishing.FinishableIff` that a stranded vessel is the only thing that
  can keep a voyage from ever being finished.
- `ReclaimJobs` ignores `max_attempts`, so `attempts <= max_attempts` is false of the lease queue:
  `Leases.ReclaimExceedsMaximum` is a run from the empty queue (create, claim, reclaim, claim) with a second
  attempt at a job allowed one. `Leases.AttemptsWithinMaximum` says exactly when the bound holds: if and only if
  the job was never taken back on its last attempt and then claimed again.
- A review job carries a bare generated identifier where the worker decodes a JSON string. No generated
  identifier is one (`Commands.GeneratedNeverDecodes`), so these jobs always die: `Outbox.SettledAfterEveryPass`
  derives that for every run. They end, but never succeed.
- The stored timestamp text does not always sort as time does: `Timestamps.TextOrder` gives the exact exception,
  two times of one second whose trimmed fractions extend one another (`.5Z` and `.51Z`, or no fraction and any).
  `StoredTimes` says what follows for each query that compares the text. The record of a plan made just after its
  key expired is dropped, and the same request then plans anew (`StoredTimes.FreshRecordKeptIff`,
  `StoredTimes.DroppedRecordNeverReplays`); the claim and the sweep misjudge exactly the rows so tangled with the
  clock, never one of another second; a voyage opening inside the first second of an operating day is counted
  in the day before. So the daily limit bounds the voyages of a day that open outside its first second
  (`StoredTimes.LimitHoldsAfterTheFirstSecond`), and nothing bounds those inside it
  (`StoredTimes.NoLimitInTheFirstSecond`).

## Assumptions

- Times are whole seconds (except in `Timestamps` and `StoredTimes`), a command reads the clock once and never
  reads Go's zero time, ports keep a fixed offset from UTC, sums are unbounded, and text is ASCII.
- A transaction is one step (SQLite transactions are serialisable); `FleetRace` drops that assumption for fleets.
- The clock may jump, except where a result says `Monotone`; the lease queue needs it only to order a release
  before the next claim.
- Anomaly identifiers are generated: a prefix of lower-case words, an underscore and 24 hexadecimal digits
  (internal/identity/id.go). A clash with an existing primary key is refused. The request hash is equality of
  requests, and their times are instants: two requests that differ only in the UTC offset a time is written in are
  one request here, while the source hashes the text and refuses the second. The stored response reads back as it
  was stored.
- The handlers register vessels and fleets without a voyage (internal/httpapi/fishing_catalog_handlers.go). The
  service methods accept any; only the steps of a run assume it.
- The users table does not change. Whether a time-zone name loads is a column of its row. Columns that no command
  reads or checks (creation times, audit rows, error texts) are dropped; the checked fields never change after
  insertion, so re-validation on update cannot fail.
- Three components of the store are history that no command reads: the anomaly each declaration was included
  in, the key each voyage was planned under, and the times a job was claimed. `Histories` and
  `Outbox.HistoryIsFaithful` prove all three against the run.
- Go structs read from the database are copies, so a loaded row is a value inside a record object.

## Model

| member | source | states |
|---|---|---|
| PlanningService.PlanFishingVoyage | internal/service/fishing_voyage.go:31-163 | the planning transaction ends exactly as `Plan` says: replay, first failing check in order, constraint refusal with rollback, or every row written |
| PlanningService.ScreenRoute | internal/service/fishing_voyage.go:60-90 | permit, ports, route and daily limit are asked in the source's order and the first objection is returned |
| PlanningService.ScreenVessels | internal/service/fishing_voyage.go:101-121 | the vessel loop reports the first objection in request order, or the total hold and every vessel moved to assigned |
| PlanningService.ValidateWindow | internal/domain/voyage_window.go:17-36 | zero times, window order, duration, the 15-minute grace and every certificate against the deadline, in that order |
| PlanningService.WriteCrew | internal/service/fishing_voyage.go:135-143 | every vessel of the plan is booked and linked, or a vessel ever linked before refuses the plan |
| PlanningService.CountPortFacilityFishingVoyagesForWindow | internal/storage/sqlite/read_operations.go:113-122 | counting row by row gives the size of the set of the port's voyages that open in the window and are not cancelled: each is counted once and no other |
| VoyageService.TransitionAny | internal/service/fishing_voyage.go:235-311 | clear, depart, land and close: voyage, every linked vessel and the fleet move together as `Advance` says, or nothing changes |
| VoyageService.CarryCrew | internal/service/fishing_voyage.go:266-288 | the crew loop carries every linked vessel, or reports the refusal of the first vessel in identifier order that refuses |
| VoyageService.RebookFleet | internal/service/fishing_voyage.go:289-304 | the fleet is deployed, released or only touched, by target |
| VoyageService.ClearFishingVoyage | internal/service/fishing_voyage.go:165-167 | clearing is `Advance` to cleared |
| VoyageService.DepartureFishingVoyage | internal/service/fishing_voyage.go:169-171 | departing is `Advance` to at sea |
| VoyageService.ConfirmFishingVoyageLanding | internal/service/fishing_voyage.go:173-175 | landing is `Advance` to landed |
| VoyageService.CloseFishingVoyage | internal/service/fishing_voyage.go:177-179 | closing is `Advance` to closed |
| VoyageService.CancelFishingVoyage | internal/service/fishing_voyage.go:181-229 | cancelling releases every vessel and the fleet as `Cancel` says, or nothing changes and the first vessel in identifier order to refuse decides the error |
| ReviewService.SubmitCatchDeclaration | internal/service/catch_declaration.go:24-92 | the declaration, the anomaly it opens or extends, the quarantined crew and the review job are written as `Submit` says, or nothing is; the submitter gets both rows back |
| ReviewService.ImpoundCrew | internal/service/catch_declaration.go:70-83 | exactly the linked vessels at sea or landed are quarantined under the anomaly |
| ReviewService.StartCatchReview | internal/service/anomaly_review.go:16-38 | only an open anomaly goes under review |
| ReviewService.DecideCatchAnomaly | internal/service/anomaly_review.go:46-106 | the decision, its disposition and the release or retirement of the anomaly's vessels are one transaction |
| ReviewService.JudgeCrew | internal/service/anomaly_review.go:76-97 | exactly the linked vessels whose note names the anomaly are released or retired |
| CatalogService.CreateCatchLandingTask | internal/service/catch_landing.go:25-66 | a task needs a voyage at sea or landed, an active officer and no pending task |
| CatalogService.ResolveCatchLandingTask | internal/service/catch_landing.go:68-96 | the assigned officer or a coordinator answers a pending task in time |
| CatalogService.ChangeSupportFleet | internal/service/support_fleet.go:13-60 | maintenance and retirement of a fleet by versioned update |
| CatalogService.RegisterFishingVessel | internal/service/catalog.go:109-126 | a new vessel is berthed, whatever its other fields; a taken registry is refused |
| CatalogService.VerifyFishingVessel | internal/service/catalog.go:128-149 | the vessel moves to sea_ready wherever the vessel table allows it |
| CatalogService.CreateSupportFleet | internal/service/catalog.go:86-107 | a new fleet is on standby under its normalised, checked code |
| CatalogService.CreateFishingPermit | internal/service/catalog.go:14-35 | a new permit is a draft under its normalised, checked and unused code, if its zone loads |
| CatalogService.ActivateFishingPermit | internal/service/catalog.go:37-61 | only a draft permit is activated |
| CatalogService.CreatePortFacility | internal/service/catalog.go:63-84 | a new port is active under its normalised, checked and unused code, if its zone loads |
| CatalogService.GetVoyageReadiness | internal/storage/sqlite/read_readiness.go:12-62 | the report holds the true counts, the latest declaration and their evaluation |
| CatalogService.LastDeclaration | internal/storage/sqlite/read_readiness.go:47-58 | the greatest recorded time among the voyage's declarations, if any |
| WorkerService.RunOnce | internal/worker/worker.go:48-81 | a committed pass sweeps, claims and settles as `WorkerPass` says for some answer of its two LIMIT queries |
| WorkerService.ExpireCatchLandingTasks | internal/storage/sqlite/jobs.go:112-150 | the earliest overdue tasks, up to the batch, are expired and no other task changes |
| WorkerService.ClaimJobs | internal/storage/sqlite/jobs.go:21-61 | the oldest ready jobs, up to the batch, are running with one more attempt |
| WorkerService.SettleJob | internal/worker/worker.go:64-79 | a claimed job succeeds, fails with a square backoff, or dies at its last attempt |
| WorkerService.ProcessJob | internal/worker/worker.go:83-99 | which jobs fail: unknown kinds, and review jobs whose payload text is neither a JSON string nor null |
| Commands.GeneratedNeverDecodes | internal/worker/worker.go:83-99 | no generated identifier decodes as a JSON string |
| WorkerService.CompleteJob | internal/storage/sqlite/jobs.go:89-96 | only a running job is completed |
| WorkerService.RetryJob | internal/storage/sqlite/jobs.go:98-110 | only a running job is put back or buried |
| Storage.Store.UpdateFishingVessel | internal/storage/sqlite/write_core.go:92-104 | the named columns change and the version rises, exactly when the expected version is current |
| Storage.Store.UpdateSupportFleet | internal/storage/sqlite/write_core.go:118-130 | the same for a fleet row |
| Storage.Store.UpdateFishingVoyage | internal/storage/sqlite/write_core.go:146-158 | the same for a voyage row |
| Storage.Store.UpdateCatchAnomaly | internal/storage/sqlite/write_core.go:212-222 | the same for an anomaly row |
| Storage.Store.UpdateCatchLandingTask | internal/storage/sqlite/write_core.go:178-189 | the same for a task row |
| Storage.Store.PutIdempotency | internal/storage/sqlite/write_core.go:242-252 | the conditional upsert: an unexpired record is left alone |
| Storage.Store.InsertFishingVoyageVesselLink | internal/storage/sqlite/write_core.go:160-164 | a vessel is linked once and for all |
| Storage.Store.InsertCatchAnomaly | internal/storage/sqlite/write_core.go:202-210 | a second active anomaly on a voyage is refused |
| Storage.Store.ListFishingVoyageVessels | internal/storage/sqlite/read_core.go:217-240 | exactly the linked vessels, in identifier order, as they stand |
| Records.VesselRecord.Transition | internal/domain/fishing_vessel.go:68-86 | the vessel table and the certificate rule, in place |
| Records.VoyageRecord.Transition | internal/domain/fishing_voyage.go:76-98 | the voyage table and the stage times, in place |
| Records.AnomalyRecord.Include | internal/domain/catch_anomaly.go:69-84 | counter and extremes are updated in place |
| Records.AnomalyRecord.Decide | internal/domain/catch_anomaly.go:95-105 | only an active anomaly is decided, and only cleared or rejected |
| Records.TaskRecord.Resolve | internal/domain/catch_landing.go:56-72 | only a pending task is resolved; an answer after the deadline is refused |
| Records.FleetRecord.StartMaintenance | internal/domain/support_fleet.go:70-77 | only a fleet on standby goes into maintenance |
| Records.FleetRecord.CompleteMaintenance | internal/domain/support_fleet.go:79-87 | only a fleet in maintenance comes back, freshly inspected |
| Records.FleetRecord.Retire | internal/domain/support_fleet.go:89-97 | only a fleet without a voyage retires |
| Records.VoyageReadiness.Evaluate | internal/domain/voyage_readiness.go:30-48 | blockers are rebuilt in order and completeness set in place |
| Server.Service.Serve | internal/storage/sqlite/store.go:59-75 | any sequence of service calls takes the store through the states of a run whose steps are those calls; a worker pass is the one of that batch, actor and time |
| Planning.ScreeningIsExact | internal/service/fishing_voyage.go:60-131 | the ordered checks pass if and only if an order-free list of demands on the columns of the store is met |
| Planning.VolumeIsSum | internal/service/fishing_voyage.go:99-119 | the running volume is the sum of the holds of the requested vessels |
| Domain.WindowsPartition | internal/domain/port_facility.go:53-68 | the operating-day windows of a port partition the timeline into days of 24 hours that open at the cutoff hour, local time |
| Domain.NoteNamesOne | internal/domain/fishing_vessel.go:94-97 | a quarantine note names the anomaly it was written for and no other |
| Texts.TrimIsExact | internal/domain/identifiers.go:11-13 | trimming removes the white space at both ends, all of it, and nothing else |
| Texts.CodeIsExact | internal/domain/identifiers.go:9-21 | a code is 2 to 64 letters, digits, dots, underscores and hyphens, a letter or digit first, whatever its case and the space around it |
| Texts.DeliveryIsExact | internal/worker/worker.go:83-99 | a job is delivered if and only if it is a planning job, or a review job whose payload is empty, null or a JSON string, token by token |
| StateTables.VesselMoves | internal/domain/fishing_vessel.go:68-86 | twelve edges and no other; a certificate that has run out allows only quarantine and retirement |
| StateTables.VoyageMoves | internal/domain/fishing_voyage.go:76-98 | six edges and no other; departing, landing and closing set their own time |
| StateTables.TaskMoves | internal/domain/catch_landing.go:56-72 | a pending task takes any answer in time, and after it only its expiry |
| StateTables.FleetEscorts | internal/domain/support_fleet.go:49-64 | standby, certified past the start and inspected by then, with room for the volume, asked in that order |
| StateTables.FleetMoves | internal/domain/support_fleet.go:70-97 | maintenance from standby and back freshly inspected, retirement from either |
| StateTables.AnomalyMoves | internal/domain/catch_anomaly.go:86-105 | an open anomaly goes under review; an open or reviewed one is cleared or rejected |
| StateTables.GeneratedIsMade | internal/identity/id.go:10-16 | a generated identifier is a prefix of lower-case words, an underscore and the hexadecimal digits of 12 bytes |
| StateTables.MadeIsGenerated | internal/identity/id.go:10-16 | and what is so made is generated |
| Texts.BlankIsAllWhite | internal/domain/identifiers.go:11-13 | a text is blank if and only if it is all white space |
| Runs.RunKeepsInv | internal/service/fishing_voyage.go:31-311 | every state of every run, by any principals at any times, satisfies the whole invariant |
| Conduct.EveryStepIsLawful | internal/service/fishing_voyage.go:31-311 | every step of every run commits exactly when the demands on the columns are met, and then changes exactly the rows and columns of its deed |
| Conduct.EscortIsCertified | internal/domain/support_fleet.go:49-64 | a plan carried out has a standby escort certified past the opening and inspected by then, and opens at most 900 seconds ago |
| Conduct.DecisionOnRows | internal/service/anomaly_review.go:76-97 | after a decision every quarantined vessel of the voyage is released with an empty note or retired with the reasons given, one version on, and every other vessel row is as it was |
| Answers.PlanAnswers | internal/service/fishing_voyage.go:31-131 | the planner is told of the first demand not met, the vessels in request order, or replayed, or committed |
| Answers.AdvanceAnswers | internal/service/fishing_voyage.go:165-311 | a named coordinator may clear and close, a captain also depart and land; then the first demand not met decides, the vessels in identifier order |
| Answers.CancelAnswers | internal/service/fishing_voyage.go:181-229 | a named coordinator cancels a planned or cleared voyage whose vessels can all go back |
| Answers.SubmitAnswers | internal/service/catch_declaration.go:24-92 | a captain or coordinator declares for a voyage at sea or landed, once per species and sequence |
| Answers.DecideAnswers | internal/service/anomaly_review.go:46-106 | an officer with reasons clears or rejects an open or reviewed anomaly |
| Answers.TaskAnswers | internal/service/catch_landing.go:25-66 | the officer is active and another person than the coordinator, and nothing is pending |
| Answers.ResolveAnswers | internal/service/catch_landing.go:68-96 | only the assigned officer or a coordinator answers a pending task, and not after its expiry |
| Answers.ChangeAnswers | internal/service/support_fleet.go:13-60 | maintenance from standby and back, retirement with a reason from either |
| Answers.PermitAnswers | internal/service/catalog.go:14-35 | the bounds, durations, texts and uniqueness asked of a permit |
| Answers.RegisterAnswers | internal/service/catalog.go:109-126 | the columns asked of a vessel, its permit and port, and the unused registry |
| Deeds.PlanDoes | internal/service/fishing_voyage.go:125-162 | a plan writes the voyage, books and links exactly its vessels, assigns its escort, queues one job and holds its key for a day; a replay writes nothing |
| Deeds.AdvanceDoes | internal/service/fishing_voyage.go:260-311 | a move writes the voyage with its stage time, the vessels that go along and the escort, and nothing else |
| Deeds.CancelDoes | internal/service/fishing_voyage.go:181-229 | a cancellation writes the voyage, frees its vessels and its escort, and nothing else |
| Deeds.SubmitDoes | internal/service/catch_declaration.go:47-91 | a committed declaration is answered with an anomaly, and joins it, if and only if its variance lies outside the two bounds of the permit |
| Deeds.DecideDoes | internal/service/anomaly_review.go:62-105 | the anomaly, its disposition and exactly the vessels it quarantined are written |
| Deeds.TaskDoes | internal/service/catch_landing.go:25-66 | the task names its coordinator, by default the caller, and its officer, and expires after its time to live |
| Deeds.ResolveDoes | internal/domain/catch_landing.go:56-72 | the answered task carries its answer, its trimmed note and its time |
| Deeds.ChangeDoes | internal/service/support_fleet.go:38-60 | the fleet row takes its new state, a fresh inspection after maintenance, no voyage once retired |
| Runs.LockstepIff | internal/service/catalog.go:128-149 | a run keeps all vessels of planned and cleared voyages assigned throughout if and only if it never verifies a vessel that left its berth |
| Preservation.PlanKeepsInv | internal/service/fishing_voyage.go:31-163 | a committed plan keeps the invariant, and strict lockstep |
| Preservation.AdvanceKeepsInv | internal/service/fishing_voyage.go:235-311 | a committed transition keeps the invariant, and strict lockstep |
| Preservation.CancelKeepsInv | internal/service/fishing_voyage.go:181-229 | a committed cancellation keeps the invariant, and strict lockstep |
| Preservation.SubmitKeepsInv | internal/service/catch_declaration.go:24-92 | a committed declaration keeps the invariant |
| Preservation.DecideKeepsInv | internal/service/anomaly_review.go:46-106 | a committed decision keeps the invariant, and strict lockstep |
| Preservation.WorkerKeepsInv | internal/worker/worker.go:48-81 | a worker pass keeps the invariant |
| Mooring.VerifyKeepsLockstepIff | internal/service/catalog.go:128-149 | one verification keeps lockstep if and only if the vessel was berthed |
| Reverification.ReverificationStrands | internal/service/catalog.go:128-149 | verifying an assigned vessel commits and strands its voyage |
| Reverification.StrandingHappens | internal/domain/fishing_vessel.go:69-76 | a concrete run after which a voyage can neither depart nor be cancelled, by anyone, ever |
| Lives.StrandedForever | internal/domain/fishing_vessel.go:69-76 | a stranded voyage and vessel stay stranded for the rest of any run |
| Lives.StepAges | internal/domain/fishing_vessel.go:69-76 | every command moves each vessel along at most one edge of the vessel table, services that assign the state directly included |
| Lives.LifeIsBounded | internal/domain/fishing_vessel.go:69-76 | a vessel changes state at most six times in any run |
| Lives.LinksAreForever | internal/storage/sqlite/migrations/001_initial.sql:102-107 | a vessel once linked stays linked to that voyage, so none serves two |
| Lives.NoMoreVoyagesThanVessels | internal/storage/sqlite/migrations/001_initial.sql:102-107 | there are never more voyages than vessels |
| Milestones.PlansStand | internal/domain/fishing_voyage.go:76-98 | a voyage's plan never changes, its version counts the moves of its row, and there are at most four |
| Milestones.StagesAreStamped | internal/domain/fishing_voyage.go:88-95 | the stage times are set exactly for the stages reached and are in order |
| Closure.ClosureIsFinal | internal/service/fishing_voyage.go:246-288 | once closed, a voyage's row, crew, tasks, declarations, anomalies and dispositions never change again |
| Closure.ClosedIsSettled | internal/service/fishing_voyage.go:246-257 | a closed voyage has nothing pending or under review, and each anomaly one disposition with its decision |
| Books.CrewFollowsVoyage | internal/service/fishing_voyage.go:266-288 | in a run that verifies no vessel twice, the state of a voyage determines the states its vessels may be in; unlinked vessels are berthed or sea_ready |
| Books.CapacityBalances | internal/service/fishing_voyage.go:101-128 | a voyage's total hold is the sum over its vessels, positive, and within its fleet's cargo capacity |
| Books.FleetsPair | internal/service/fishing_voyage.go:144-149 | underway voyages and assigned or deployed fleets are in bijection, each naming the other |
| Books.DailyLimitHolds | internal/service/fishing_voyage.go:76-90 | at most the daily limit of non-cancelled voyages of a port opens in any operating day |
| Books.QuarantineDuality | internal/service/catch_declaration.go:53-83 | a vessel is quarantined only under its voyage's one active anomaly, which its note names; under an active anomaly no vessel is at sea or landed |
| Books.DecisionEmptiesQuarantine | internal/service/anomaly_review.go:76-97 | after a decision no vessel of that voyage is quarantined |
| Books.DeclarationsConserved | internal/service/catch_declaration.go:47-87 | the anomalies of a voyage partition its out-of-envelope declarations; counts and extremes are those of the parts, counts add up, and each anomaly has one review job per declaration |
| Books.AggregatesAreUnique | internal/domain/catch_anomaly.go:69-84 | the aggregates depend on the set of declarations only, not on their order |
| Readiness.ReadinessAgrees | internal/domain/voyage_readiness.go:30-48 | a close commits if and only if a named coordinator asks and the report is complete; still complete once closed |
| Readiness.CloseNeverMeetsAVessel | internal/service/fishing_voyage.go:279-282 | the vessel check inside close never fires when nothing is pending or active |
| Readiness.ProgressByDeadline | internal/service/fishing_voyage.go:122-124 | up to the deadline, clearing and landing commit exactly for those who may ask, departing and cancelling exactly for those and with all vessels still assigned |
| Readiness.FiguresAreCounts | internal/storage/sqlite/read_readiness.go:12-62 | each figure of the report is the number of rows it is named for |
| Readiness.BlockersAreExact | internal/domain/voyage_readiness.go:30-48 | each blocker is listed exactly when its cause is there, once and in order |
| Progress.ReportMatchesClose | internal/storage/sqlite/read_readiness.go:12-62 | in every state of every run a close commits if and only if a named coordinator asks and the report is complete |
| Progress.NobodyIsHeldUp | internal/domain/voyage_window.go:30-34 | in every state of every run, a move before the deadline commits if and only if it is asked by a named coordinator, or for departing and landing by a named captain, and is a clearing or a landing or all vessels are still assigned |
| Progress.NobodyIsEverHeldUp | internal/domain/fishing_vessel.go:77-82 | without re-verification, a move before the deadline commits exactly for those who may ask |
| Finishing.FinishVoyage | internal/service/fishing_voyage.go:165-311 | from every reachable state where a voyage has its deadline ahead and no vessel stranded, at most four more commands end with it closed or cancelled |
| Finishing.FinishableIff | internal/domain/fishing_vessel.go:69-76 | with its deadline ahead, a voyage can be finished if and only if no vessel of it is stranded |
| Handoffs.SettledTasksNeverChange | internal/domain/catch_landing.go:56-72 | an answered or expired task never changes again |
| Handoffs.TasksMeetDeadlines | internal/domain/catch_landing.go:56-72 | answers come by the deadline, expiries after it, and a voyage has at most one pending task |
| Handoffs.SweepIsExact | internal/storage/sqlite/jobs.go:112-150 | a sweep with batch b over n overdue tasks expires exactly min(b, n), none due later than one left behind |
| Outbox.AttemptsConserved | internal/worker/worker.go:48-81 | attempts left plus jobs claimed equals attempts left before plus five per job added |
| Outbox.PassesRunOut | internal/storage/sqlite/jobs.go:21-61 | passes that claim anything are bounded by the attempts left and the jobs added |
| Outbox.SettledAfterEveryPass | internal/worker/worker.go:64-79 | between passes nothing is running; failed jobs have attempts left, dead ones none; planning jobs succeed at once, and review jobs, whose payload is a generated identifier, die at the fifth attempt |
| Outbox.DeathTakesTime | internal/worker/worker.go:66-69 | a job dying on attempt n does so at least (n-1)n(2n-1)/6 seconds after its first attempt |
| Deliveries.ClaimIsExact | internal/storage/sqlite/jobs.go:21-61 | of the n jobs that are pending or failed and available, a pass with batch b runs exactly min(b, n) once more, none created later than one left behind, and no other job changes |
| Deliveries.ClaimedRow | internal/storage/sqlite/jobs.go:42-58 | a claimed job is running, locked at the time of the pass, with one more attempt |
| Deliveries.FivePassesSettle | internal/worker/worker.go:48-81 | five passes with room for all that wait, spaced by the square backoff, bring a planning job to succeeded and a review job to dead |
| Outbox.HistoryIsFaithful | internal/storage/sqlite/jobs.go:42-58 | the claim times recorded for a job are those of the passes that claimed it |
| Histories.InclusionsAreAnswers | internal/service/catch_declaration.go:24-92 | the anomaly recorded for each declaration is the one its submitter was given, over the whole run |
| Histories.PlansAreKeys | internal/service/fishing_voyage.go:49-159 | the key recorded for each voyage is that of the plan that was carried out for it, over the whole run |
| Replays.PlanningIsIdempotent | internal/service/fishing_voyage.go:49-58 | for a day the same request gets the first response back, any other under the key is refused, and the store is unchanged |
| Replays.FreshPlanKeepsItsRecord | internal/storage/sqlite/write_core.go:242-252 | the conditional upsert reached from planning never drops its write when times are whole seconds |
| Replays.FreshPlansADayApart | internal/service/fishing_voyage.go:154-156 | two plans carried out under one key are at least 24 hours apart |
| Replays.KeysSpaceVoyages | internal/service/fishing_voyage.go:150-159 | the same on the rows, and each voyage has exactly one planning job |
| FleetRace.FinishIsSerialOrNothing | internal/storage/sqlite/write_core.go:118-130 | a commit on current rows is the serial command; on any stale row it changes nothing |
| FleetRace.RaceKeepsFleetsPaired | internal/service/support_fleet.go:44-58 | the fleet bijection survives any interleaving of sessions on stale rows |
| FleetRace.FinishRefinesSerial | internal/storage/sqlite/store.go:129-138 | in every race the tables after a finish are the serial command's or the ones before |
| FleetRace.SerialAnswers | internal/service/support_fleet.go:38-60 | which error the serial commands end with, on the columns |
| FleetRace.SessionMoves | internal/storage/sqlite/store.go:129-138 | sessions read each row once, as it then stands, and touch neither the tables nor one another before they finish |
| FleetRace.SerialIsPlan | internal/service/fishing_voyage.go:31-163 | the race's serial plan is the service's plan on voyages and fleets |
| FleetRace.SerialIsAdvance | internal/service/fishing_voyage.go:235-311 | the race's serial move is the service's transition on voyages and fleets |
| FleetRace.SerialIsCancel | internal/service/fishing_voyage.go:181-229 | the race's serial move is the service's cancellation on voyages and fleets |
| FleetRace.SerialIsChange | internal/service/support_fleet.go:38-60 | the race's serial change is the service's maintenance command |
| Selection.TakeFirst | internal/runtimeops/jobs.go:31-79 | ORDER BY key, id LIMIT n returns the n least rows in order |
| Selection.FirstIsEarliest | internal/storage/sqlite/jobs.go:21-24 | breaking ties by identifier is one of the answers ORDER BY key alone allows |
| Leases.RuntimeStore.CreateJob | internal/runtimeops/jobs.go:9-12 | a job is created without a lease |
| Leases.RuntimeStore.ClaimJobs | internal/runtimeops/jobs.go:31-79 | the first due jobs are leased with a new attempt number, and handed out as stored |
| Leases.RuntimeStore.CompleteJob | internal/runtimeops/jobs.go:81-94 | completion is accepted exactly from the current attempt, with one outbox row |
| Leases.RuntimeStore.FailJob | internal/runtimeops/jobs.go:96-117 | failure is accepted exactly from the current attempt, and kills at the maximum |
| Leases.RuntimeStore.ReclaimJobs | internal/runtimeops/jobs.go:119-125 | exactly the lapsed leases are taken back |
| Leases.RuntimeStore.RunOnce | internal/runtimeops/coordinator.go:97-120 | an undisturbed worker's token is always accepted |
| Leases.WorkerReports | internal/runtimeops/coordinator.go:97-120 | whatever other workers do in between, a worker's report is accepted if and only if nothing has happened to the job since it was claimed |
| Leases.Runtime.Serve | internal/runtimeops/jobs.go:9-125 | any sequence of calls takes the lease queue through the states of a run |
| Leases.TokenFence | internal/runtimeops/jobs.go:81-117 | a job is running exactly when leased, or inserted so and never reported on; only the latest unreleased claim may complete or fail it |
| Leases.LeasesDisjoint | internal/runtimeops/jobs.go:31-79 | successive claims of a job never overlap: in between, the holder gave it up or its lease had run out |
| Leases.StaleForever | internal/runtimeops/jobs.go:81-117 | the token of an ended claim is refused for the rest of the run |
| Leases.Absorbing | internal/runtimeops/jobs.go:31-125 | done and dead jobs never change again |
| Leases.OneDoneRow | internal/runtimeops/jobs.go:81-94 | a job created pending has one job_done row if done and none otherwise |
| Leases.AttemptsWithinMaximum | internal/runtimeops/jobs.go:31-125 | for every job inserted within its maximum, attempts stay within it if and only if the job was never reclaimed on its last attempt and then claimed again |
| Leases.AttemptsBound | internal/runtimeops/jobs.go:119-120 | in any case attempts stay within the maximum plus the reclaims |
| Leases.ReclaimExceedsMaximum | internal/runtimeops/jobs.go:119-120 | a run from the empty queue in which a job allowed one attempt is claimed a second time after a reclaim |
| RuntimeAnswers.ClaimTakesTheDue | internal/runtimeops/jobs.go:31-79 | a claim returns the first waiting jobs of the tenant by availability and identifier, as many as there are up to the limit |
| RuntimeAnswers.ClaimOnRows | internal/runtimeops/jobs.go:31-79 | claimed rows run under a new attempt number until the lease ends; others are as they were |
| RuntimeAnswers.CompleteAnswers | internal/runtimeops/jobs.go:81-94 | completion from the running attempt alone, with its outbox row |
| RuntimeAnswers.FailAnswers | internal/runtimeops/jobs.go:96-117 | a failed attempt waits a minute per attempt, or is dead at the maximum |
| RuntimeAnswers.ReclaimOnRows | internal/runtimeops/jobs.go:119-125 | exactly the rows running under a lapsed lease become failed |
| SlotPermits.PermitStore.ExecutePermit | internal/runtimeops/permit.go:45-72 | execution needs the current version, an approved permit and a free slot |
| SlotPermits.PermitStore.ApprovePermit | internal/runtimeops/permit.go:25-43 | approval needs the current version of a pending permit and leaves an audit row |
| SlotPermits.PermitStore.CancelPermit | internal/runtimeops/permit.go:74-87 | cancellation needs the current version of a pending or approved permit |
| SlotPermits.Registry.Serve | internal/runtimeops/permit.go:10-87 | any sequence of calls takes the permit tables through the states of a run |
| SlotPermits.OneExecutionPerSlot | internal/runtimeops/permit.go:45-72 | at most one permit per tenant and slot ever executes, over the whole run |
| SlotPermits.PathMatchesRows | internal/runtimeops/permit.go:25-87 | for a permit created pending, version, audit and outbox rows tell the path taken |
| RuntimeAnswers.ExecuteAnswers | internal/runtimeops/permit.go:45-72 | an approved permit at the expected version executes when no permit of its tenant does in its slot |
| RuntimeAnswers.ApproveAnswers | internal/runtimeops/permit.go:25-43 | a pending permit at the expected version is approved, one version on, with its audit row |
| RuntimeAnswers.CancelPermitAnswers | internal/runtimeops/permit.go:74-87 | a pending or approved permit at the expected version is cancelled, one version on, with its outbox row |
| EventBatches.BatchStore.CreateBatch | internal/runtimeops/events.go:8-11 | a batch starts with no events; a taken identifier is refused |
| EventBatches.BatchStore.RecordEvent | internal/runtimeops/events.go:13-35 | an event joins a collecting batch of its tenant and is counted |
| EventBatches.BatchStore.CloseBatch | internal/runtimeops/events.go:37-56 | a batch closes only when every event is classified |
| EventBatches.BatchStore.ClassifyEvent | internal/runtimeops/events.go:58-68 | an event is classified once |
| EventBatches.Ingest.Serve | internal/runtimeops/events.go:8-68 | any sequence of calls takes the batch tables through the states of a run |
| EventBatches.CountMatchesEvents | internal/runtimeops/events.go:13-35 | the stored counter always equals the number of events |
| EventBatches.ClosedIsFinal | internal/runtimeops/events.go:37-68 | a closed batch and its events never change, and all are classified |
| RuntimeAnswers.CloseAnswers | internal/runtimeops/events.go:37-56 | a collecting batch closes unless an event of it and its tenant waits to be classified |
| RuntimeAnswers.RecordAnswers | internal/runtimeops/events.go:13-35 | an event is taken by a collecting batch of its tenant, once, and counted |
| RuntimeAnswers.ClassifyAnswers | internal/runtimeops/events.go:58-68 | an unclassified event of the tenant takes its status and keeps the rest |
| Timestamps.TextOrder | internal/storage/sqlite/store.go:91-99 | stored text sorts as time does, except exactly when two times share a second and one trimmed fraction is a proper prefix of the other (section 5.1 of RFC 3339 promises the order only for equal precision) |
| Timestamps.WholeSecondOrder | internal/storage/sqlite/store.go:91 | whole-second times always sort correctly |
| Timestamps.RoundTrip | internal/storage/sqlite/store.go:91-99 | reading the stored text gives back the time that was stored |
| Timestamps.TextShape | internal/storage/sqlite/store.go:91 | the text is yyyy-mm-ddThh:mm:ss, the fraction if there is one, and Z |
| StoredTimes.TextDecides | internal/storage/sqlite/store.go:91 | < and <= on stored text reverse the order of tangled times and keep that of all others |
| StoredTimes.FreshRecordKeptIff | internal/storage/sqlite/write_core.go:242-252 | the upsert keeps the record of a plan made under an expired key if and only if the expiry and the clock are not tangled |
| StoredTimes.DroppedRecordNeverReplays | internal/service/fishing_voyage.go:49-58 | after a dropped write the key is open again at once |
| StoredTimes.HalfSecondIsTangled | internal/storage/sqlite/write_core.go:248 | two concrete times for which the write is dropped |
| StoredTimes.QueriesMisjudgeTheTangled | internal/storage/sqlite/jobs.go:21-113 | the claim and the sweep err on exactly the rows whose time is tangled with the clock, all of the clock's own second |
| StoredTimes.CountedInItsDayIff | internal/storage/sqlite/read_operations.go:113-122 | a voyage is counted in its own operating day if and only if it does not open inside the first second of one after its very start; otherwise it counts for the day before |
| StoredTimes.LimitHoldsAfterTheFirstSecond | internal/service/fishing_voyage.go:76-90 | whatever is planned and cancelled, at most the daily limit of voyages opens in a day outside its first second |
| StoredTimes.NoLimitInTheFirstSecond | internal/service/fishing_voyage.go:76-90 | any number of voyages can be planned inside the first second of a day, whatever the limit |
| StoredTimes.LatestIsReportedIff | internal/storage/sqlite/read_readiness.go:47-58 | the readiness report names the latest declaration if and only if no other is tangled with it |

## Left out

- ReviewService.SubmitCatchDeclaration: starts from a store with at most one active anomaly per voyage, which the partial UNIQUE index guarantees and `Server.Service.Serve` discharges.
- Domain.WindowsPartition: fixed offsets; daylight saving makes some operating days an hour shorter or longer.
- Storage.Store.PutIdempotency: compares whole seconds; `StoredTimes.FreshRecordKeptIff` says what the text comparison does with fractions.
- Replays.FreshPlanKeepsItsRecord: the same.
- Leases.RuntimeStore.RunOnce: the handler's outcome is given in advance and nobody interferes; `Leases.WorkerReports` covers interference.
- Timestamps.RoundTrip: years 0 to 9999 and UTC only; offsets and other layouts that the parser would accept are not modelled.
- Server.Service.Serve: a refused call's error is stated by the service methods, not repeated here.
- HTTP handlers, middleware, JSON decoding, logging, configuration and commands: plumbing; only roles appear, as guards.
- Passwords, tokens and sessions: library cryptography.
- SQL, drivers and migrations: tables are maps with the primary key and UNIQUE constraints of the schema; foreign keys hold by the invariant.
- Kilogram conversion and display formatting: floating point.
- Torn readiness reads: the report is evaluated on one state, though the source reads outside a transaction.
- A worker pass that fails part-way: it rolls back, so only committed passes are steps.
- Audit metadata, list filters and platform summaries: single-branch facts.
- Write-once commands, checkpoints, the step pipeline and the retry helper of internal/runtimeops: simple monotone facts.
- Cancellation of contexts, timers, goroutines and shutdown.

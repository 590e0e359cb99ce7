# Verified model of the energy platform's ledger, Bronze and Silver

The platform captures documents of energy data sources into Bronze (content-addressed blobs and a
create-only capture log), keeps a ledger of runs, attempts, leases and fences, and maps each
capture into Silver, an append-only store of versioned observations with a current view. Several
workers capture, process, recapture, replay, reconcile, detect gaps and rebuild at the same time.
This project models that core in Dafny and proves what it promises.

How the model is laid out:

- `Types`, `Ledger`, `Silver`: row types, and each atomic store step as a function of the whole
  state. Ids are positions, as the store's counters number them. `MemoryStore` is the store itself,
  a class whose methods update its fields in loops; each method is proved against its step.
- `System`, `Invariant`, `Traces`: any number of workers over one Bronze and one ledger, as
  interleaved steps. `claims` is the set of claims handed out and not yet committed. One invariant
  is kept by every step, so it holds in every state of every run.
- `Scans`: the same system with gap scans in it, each with its two reads, its turns and its alerts,
  any of which may be its last; forgetting the scans, a history is a run of the system.
- `Leases`, `Repair`, `RepairScans`, `Served`, `View`, `ViewLaws`, `Values`, `Alerts`, `SecondAlerts`: theorems
  over those runs and over the current view.
- `CaptureLog`, `CaptureRace`, `BronzeStore`, `Capture`, `CaptureCall`, `Outage`: the log, racing
  writers cut at their calls to shared storage, the retry loop itself under interference, and the
  whole of `capture` with a ledger that may go down anywhere.
- `Reconcile`, `Process`, `Rebuild`, `Drill`, `Restore`, `RestoreDrill`, `Unmirrored`: recovery, from
  one reconciled entry up to the verdict of the restore drill over all targets.
- `Gaps`, `Cron`, `Schedule`, `Intervals`, `Mapping`, `RateLimiter`: the gap detector, firing
  instants, delivery intervals, record mapping and the token bucket.

How things are said: a step or a loop is tied to a function of the whole state, and what that function
means is then proved in the stored fields' own terms, by tables and predicates that share nothing with
it (`Gaps.Rule`, `Reconcile.Brought`, `Capture.AckedRun`, `Process.Decided`, `View.GoesBefore`,
`Drill.Decides`, `CaptureRace.Describes`).

Abstractions: instants are whole numbers; names and hashes are opaque values compared for equality
(so hashes are injective); decode, parse and map are together one deterministic function of target,
derivation, payload and instant (`Catalog`); the clock may show anything at each reading.

Where the code does not do all that its documentation says:

- "Repair work is never dropped" fails in one interleaving: a gap scan acts on the log and the runs it
  read when it started, and `set_state` has no guard, so a stale scan can park a run whose only trace
  of the owed repair is its `captured` state. `RepairScans.OwedUnlessTurnDrops` proves that, move by
  move, this is exactly when the debt is lost, and `RepairScans.DropNeedsEntry` that an entry of the
  instant then landed after the scan listed the log. When no scan's listing is overtaken like that, the
  promise holds over every history (`RepairScans.RepairNeverDropped`), so in particular for scans on
  current readings (`RepairScans.CurrentListingsHold`). `RepairScans.ScanCanDropRepair` gives the run
  that fails.
- "One alert per gap" fails when a scan does not see what an earlier turn did.
  `Alerts.SecondAlertIff` proves exactly when: the scan read the runs before that turn (scans that
  overlap need nothing else to happen), or the turn parked nothing because its own reading was
  stale, or the run had left the parked state for an entry that landed between the scan's two
  reads, or by a stale scan that reopened it. `SecondAlerts` gives a run of each kind. The deployment
  runs scans one at a time, which `detect_gaps` itself does not ensure; `Alerts.OneAtATimeIff` proves
  that a turn that parked nothing and a late entry are then the only ways left, and
  `SecondAlerts.LateCapture` and `SecondAlerts.NothingParked` that they remain.
  `Alerts.CurrentScansAlertOnce` proves that scans acting on current readings alert once.
- It also fails the other way: the alert is a store call of its own after the one that parks the run, so
  a scan that stops between the two leaves a gap without any alert, and no later scan makes up for it
  (`SecondAlerts.LostAlert`). A parked instant has its alert unless a scan still owes it
  (`Alerts.AlertIffTold`).
- The drill skips captures that the replica's decisions rule out, so a decision that live has not
  mirrored yet reads as missing versions: `Unmirrored.DecisionReadsAsMissing` gives the run. Nothing
  is missing and nothing diverges if and only if every version live expects is given by a usable
  capture of a drilled target (`Restore.ReproducedIffGiven`), which holds when the captures up to
  the replica's newest are replicated and live knows the ones ruled out (`Restore.LiveIsGiven`); a
  reconcile of live establishes the latter (`Rebuild.MirrorAgrees`).

## Model

| member | source | states |
|---|---|---|
| `MemoryStore.Store.Find` | energy_platform/store/memory.py:61-65 | the first run of the target and instant, or none exactly when there is none |
| `MemoryStore.Store.Ensure` | energy_platform/store/memory.py:67-98 | the new ledger: one run per target and instant, created with the given state and capture, or filled in where none is named and it is not processed; nothing else changes |
| `MemoryStore.Store.Mark` | energy_platform/store/memory.py:119-122 | only the state and update time of that run change |
| `MemoryStore.Store.Recapture` | energy_platform/store/memory.py:124-136 | a new generation: pending again, naming the new capture, fence raised, lease dropped |
| `MemoryStore.Store.CloseExpired` | energy_platform/store/memory.py:148-154 | exactly the replays of the run whose own lease ran out are closed as lost, and it says whether there was one |
| `MemoryStore.Store.NextPending` | energy_platform/store/memory.py:155-155 | the first pending replay of the run, or none exactly when there is none |
| `MemoryStore.Store.Take` | energy_platform/store/memory.py:140-196 | no claim exactly while an unexpired lease stands; else the fence is raised, the run leased for the ttl asked, and an attempt handed out as `MemoryStore.TakeMeans` says; nothing else changes |
| `MemoryStore.TakeMeans` | energy_platform/store/memory.py:148-196 | what a claim does to the attempts: abandoned replays closed, the first waiting one handed over, else a new attempt, a replay exactly if one was closed |
| `MemoryStore.Store.Extend` | energy_platform/store/memory.py:198-203 | the run's lease (not the attempt's) is extended exactly under the current fence |
| `MemoryStore.Store.Commit` | energy_platform/store/memory.py:205-256 | the whole new state and counts; a stale fence closes its own attempt and changes nothing else |
| `MemoryStore.CommitMeans` | energy_platform/store/memory.py:205-256 | what a commit does to run, attempt, registrations and events, field by field, and that a stale one closes its own unfinished attempt and does nothing else |
| `MemoryStore.Store.Upsert` | energy_platform/store/memory.py:225-243 | rows and occurrences after the loop are the specification's, with exact inserted and returned counts |
| `MemoryStore.StoreOneMeans` | energy_platform/store/memory.py:228-243 | one observation: a version of new identity, payload and derivation gets a row, a stored one an occurrence for a fetch it has not seen, ordered by publication where there is one |
| `MemoryStore.Store.Record` | energy_platform/store/memory.py:258-283 | one finished attempt without a fence is appended |
| `MemoryStore.Store.Enqueue` | energy_platform/store/memory.py:285-303 | a replay is appended unless one is pending |
| `MemoryStore.Store.PendingRuns` | energy_platform/store/memory.py:308-317 | exactly the target's runs that are captured or have a pending or dead replay, each once, by scheduled instant |
| `MemoryStore.PendingMeans` | energy_platform/store/memory.py:308-317 | what pending means on the stored attempts: captured, or a replay that waits unheld, or one whose holder let its lease run out |
| `MemoryStore.Store.Invalidate` | energy_platform/store/memory.py:330-335 | the decision is recorded, and it says whether it is new |
| `MemoryStore.Store.CurrentRows` | energy_platform/store/memory.py:398-438 | every row shown was asked for and comes first among those of its identity, and every identity with a row that was asked for is shown |
| `View.CurrentMeans` | energy_platform/store/memory.py:408-438 | what the view shows: rows of the dataset, window, metric and transport asked for with an occurrence that counts, and of each identity the one that goes before all others by owner, newest such occurrence, contract version, registration, id and storage |
| `MemoryStore.Store.BestRows` | energy_platform/store/memory.py:407-430 | the running best is, per identity, the first stored among the candidates of maximal rank |
| `Silver.StoreAllKeeps` | energy_platform/store/memory.py:225-243 | append-only: rows and occurrences stay, version identities stay unique, every row keeps an occurrence, every observation is recorded |
| `Silver.StoreAllOrigin` | energy_platform/store/memory.py:228-243 | every row and occurrence was there before or comes from the committed observations under this attempt |
| `Silver.StoreAllIdempotent` | energy_platform/store/memory.py:237-243 | storing what is recorded changes nothing and counts nothing |
| `Silver.RetryIsNoop` | energy_platform/contracts/observation.py:138-152 | re-committing the same versions and fetch instants, by any attempt, inserts nothing and adds no occurrence |
| `Silver.NothingCounted` | energy_platform/runtime/process.py:122-125 | a commit that inserted nothing and returned nothing left Silver as it was |
| `Silver.UnchangedCountsNothing` | energy_platform/runtime/process.py:122-125 | a commit that left Silver as it was counts nothing, so no-op means exactly that |
| `Types.Observe` | energy_platform/runtime/process.py:82-99 | observations exist exactly when the payload maps, and carry the capture's payload, fetch instant and derivation |
| `Invariant.StepKeeps` | energy_platform/runtime/process.py:52-128 | every step of every worker keeps the system invariant and loses nothing settled |
| `Invariant.KeepsTake` | energy_platform/store/memory.py:140-196 | a claim keeps the invariant: unique fences per run, one pending replay, claims that match their attempts |
| `Invariant.KeepsAccept` | energy_platform/store/memory.py:223-256 | an accepted commit keeps the invariant: what it stores is what its own logged capture maps to |
| `Invariant.KeepsLose` | energy_platform/store/memory.py:217-222 | a superseded commit keeps the invariant |
| `Traces.Reachable` | energy_platform/store/memory.py:67-256 | the invariant holds in every state of every run |
| `Traces.NothingLost` | energy_platform/store/protocol.py:192-273 | over any run log entries, finished attempts, rows, occurrences, registrations and decisions stay, and fences only rise |
| `Traces.AcceptedIffNotSuperseded` | energy_platform/store/memory.py:205-222 | a commit is accepted if and only if no later claim and no recapture of its run happened, and then the run still names the attempt's capture |
| `Leases.LeaseProtects` | energy_platform/store/memory.py:140-147 | over any run, a granted lease protects its holder for exactly its ttl: until a commit, recapture or renewal a claim within it gets nothing and changes nothing, and the first later one is granted |
| `Leases.FreedIsGranted` | energy_platform/store/memory.py:124-147 | an accepted commit and a recapture end the lease: the next claim is granted at any time, with its own lease, fence and attempt |
| `Traces.SupersededCommitIsInert` | energy_platform/store/memory.py:217-222 | after a later claim or a recapture the commit changes nothing but closing its own unfinished attempt as lost |
| `Traces.ListedIsClaimable` | energy_platform/runtime/process.py:52-66 | a run that was listed as pending names a capture when it is claimed later, whatever happened between |
| `Traces.ProcessedMeansProcessed` | energy_platform/store/memory.py:205-256 | a processed run has a finished ok attempt naming exactly its capture, and every capture the ledger names is a log entry of that run with its blob |
| `Repair.StillOwed` | energy_platform/store/memory.py:148-196 | one step: an owed repair stays owed unless a later claim's commit is accepted or a gap scan parks the run while only its state stands for it |
| `Repair.DropEndsDebt` | energy_platform/runtime/gaps.py:112-121 | such a parking always ends the debt, so the condition is exact |
| `Repair.OwedUnlessDropped` | energy_platform/runtime/gaps.py:112-121 | short of an accepted commit by a later claim, the debt stands after a step if and only if the step is not such a parking |
| `Repair.OwedIsListed` | energy_platform/store/memory.py:308-317 | while owed, the run is captured or has an unfinished replay, and it is listed as soon as no unexpired lease holds it |
| `Repair.RepairNeverDropped` | energy_platform/store/memory.py:285-317 | over any run from an enqueued replay to the accepted commit of a later claim the repair is owed and listed |
| `Repair.OnePendingReplay` | energy_platform/store/memory.py:285-303 | no run ever has two pending replays |
| `RepairScans.OwedUnlessTurnDrops` | energy_platform/runtime/gaps.py:106-121 | with scans among the workers, short of an accepted commit by a later claim, the debt stands after a move if and only if the move is not a scan's turn that marks the run while only its `captured` state stands for the debt |
| `RepairScans.DropNeedsEntry` | energy_platform/runtime/gaps.py:82-121 | a scan's turn drops an owed repair only when an entry of the instant landed after that scan listed the log |
| `RepairScans.CurrentListingsHold` | energy_platform/runtime/gaps.py:82-85 | scans whose turns act on current readings never have their listing overtaken by an entry |
| `RepairScans.RepairNeverDropped` | energy_platform/store/memory.py:285-317 | over any history with scans, from an enqueued replay to the accepted commit of a later claim the repair is owed and listed, when no entry of the instant lands between a listing and its scan's turn |
| `RepairScans.ScanCanDropRepair` | energy_platform/runtime/gaps.py:79-121 | a concrete history in which a scan that read log and runs before the first capture parks the run for good by its own turn, with no commit |
| `View.PreferredIsOrder` | energy_platform/store/ordering.py:34-53 | rank with first-stored on ties is a total order on valid rows |
| `View.ExactlyOneCurrent` | energy_platform/silver/migrations/versions/0006_invalidations.py:50-69 | each identity with a valid candidate has exactly one current row |
| `View.CurrentByRank` | energy_platform/silver/migrations/versions/0006_invalidations.py:62-69 | what makes a row current, criterion by criterion: owner, newest standing occurrence, contract version, registration, derivation id, first stored |
| `View.FiltersCommute` | energy_platform/store/memory.py:408-436 | time and metric filters commute with selection |
| `View.CanonicalIsTransportCurrent` | energy_platform/silver/migrations/versions/0006_invalidations.py:71-84 | the canonical row is the current row of its own transport, and no transport's current row outranks it |
| `View.Newest` | energy_platform/store/memory.py:374-390 | the greatest instant among the occurrences that still stand |
| `ViewLaws.CommitTouches` | energy_platform/store/memory.py:228-243 | of one document's commit, each identity has exactly one row whose occurrences can change, and only at the capture's fetch instant |
| `ViewLaws.ReturnBecomesCurrent` | energy_platform/store/memory.py:237-243 | a standing capture ordered after everything valid of its identity in its transport, with a new fetch instant, becomes that transport's current row, new payload or returning one |
| `ViewLaws.LateReplayChangesNothing` | energy_platform/store/ordering.py:41-53 | a capture ordered before the transport's current newest instant changes neither view for that identity, whatever its derivation |
| `ViewLaws.InvalidationErases` | energy_platform/store/memory.py:374-384 | the view after a decision is the view with the concerned occurrences deleted |
| `ViewLaws.DecideBeforeOrAfter` | energy_platform/runtime/process.py:75-76 | deciding before processing or after it gives the same current rows in every view |
| `ViewLaws.RetryKeepsViews` | energy_platform/store/memory.py:237-243 | re-committing a capture inserts nothing, counts nothing and leaves every view unchanged |
| `Values.RecordsMakeDocuments` | energy_platform/mapping/engine.py:53-87 | a catalog that maps with `map_records` gives one measurement per identity of a document |
| `Values.TransportsAgree` | energy_platform/contracts/observation.py:150-152 | in a reachable state a stored row of an observation's version came from that observation's transport |
| `Values.CommitsObeyViewLaws` | energy_platform/runtime/process.py:69-128 | every commit of every run meets the hypotheses of the laws of the view |
| `Served.ReachableIsReadable` | energy_platform/store/memory.py:392-396 | in reachable states no view read fails on an unregistered derivation or a dangling attempt |
| `Served.CurrentIsSupported` | energy_platform/store/memory.py:374-430 | every row any reachable view shows is mapped from a logged capture that stands, which supplies its ordering instant |
| `CaptureLog.MemoryLog.PutNew` | energy_platform/bronze/capture_log.py:151-156 | creates the entry only where its key is free, and never overwrites |
| `CaptureLog.MemoryLog.Get` | energy_platform/bronze/capture_log.py:158-159 | the entry of that id, or none exactly when there is none |
| `CaptureLog.MemoryLog.List` | energy_platform/bronze/capture_log.py:171-180 | exactly the target's entries in the window, ordered by instant and attempt |
| `CaptureLog.MemoryLog.EntriesFor` | energy_platform/bronze/capture_log.py:161-169 | exactly the entries of the instant, ordered by attempt |
| `CaptureLog.Ordered` | energy_platform/bronze/capture_log.py:118-119 | the same entries, sorted |
| `CaptureRace.AllStates` | energy_platform/bronze/bronze.py:77-134 | the race invariant holds at every point of every schedule of any number of writers |
| `CaptureRace.AttemptsAreInitial` | energy_platform/bronze/bronze.py:81-90 | at every point, also after any crash, the attempts of an instant are exactly 1 to n and every entry's blob is stored |
| `CaptureRace.GrowsAlong` | energy_platform/bronze/capture_log.py:151-156 | over any schedule no entry is overwritten and no blob vanishes |
| `CaptureRace.AcknowledgedIsKept` | energy_platform/bronze/bronze.py:127-129 | an acknowledged capture keeps its own entry, which says what was fetched, for ever, and no two acknowledged captures share a key |
| `CaptureRace.GivingUpMeansFiveOthers` | energy_platform/bronze/bronze.py:81-134 | giving up means that five entries by other writers landed since the call began |
| `CaptureRace.AnswersMean` | energy_platform/bronze/bronze.py:81-107 | in any schedule an answer without a new entry is unforced, met no other writer and is the instant's; a refusal is of a 304 that the given baseline does not explain |
| `BronzeStore.Bronze.Capture` | energy_platform/bronze/bronze.py:60-134 | the retry loop under arbitrary interference: which entry is created and against which baseline, idempotence without force, refusal only of a 304, five landed entries on giving up; and its exact effect when undisturbed |
| `BronzeStore.EffectOfListing` | energy_platform/bronze/bronze.py:81-130 | the effect of an undisturbed capture, told by what the instant's listing shows |
| `BronzeStore.EffectMeans` | energy_platform/bronze/bronze.py:60-134 | an undisturbed capture, case by case and field by field: answered, refused, or the next attempt with what was fetched |
| `BronzeStore.Bronze.Round` | energy_platform/bronze/bronze.py:81-130 | one round: the answer, the refusal, the created entry, or the key another writer took |
| `BronzeStore.Bronze.Create` | energy_platform/bronze/bronze.py:101-129 | blob before entry, the entry only where its key is free |
| `Capture.Baseline` | energy_platform/runtime/capture.py:103-115 | the newest HTTP 200 entry of the same delivery day, or none exactly when there is none |
| `Capture.Ack` | energy_platform/runtime/capture.py:118-149 | the whole new ledger wherever an outage cuts the calls, with the invariant kept; an acknowledgement leaves the instant's run on a capture, after a recapture on that very entry |
| `Capture.NotedAcks` | energy_platform/runtime/capture.py:118-149 | the acknowledged ledger by the instant's run before: created, filled in, captured anew after a recapture, or left; the attempt as recorded; and where an outage can cut it off |
| `CaptureCall.FindBaseline` | energy_platform/runtime/capture.py:103-115 | the newest HTTP 200 entry of the target's delivery day in the log, and its payload is stored |
| `CaptureCall.OneBaseline` | energy_platform/runtime/capture.py:103-115 | the log determines the baseline |
| `CaptureCall.Record` | energy_platform/runtime/capture.py:57-98 | what the fetch leaves in Bronze and the outcome, case by case; a recapture is due exactly when a forced call created an entry whose content changed |
| `CaptureCall.Run` | energy_platform/runtime/capture.py:38-100 | the whole call: its effect on Bronze does not mention the ledger, wherever the store goes down; no-op exactly when captured and not forced; acknowledged, the ledger has the run and the attempt that what was recorded calls for |
| `CaptureCall.CompletedMeans` | energy_platform/runtime/capture.py:84-149 | an entry that is the instant's first or that a forced call found changed is the run's capture, pending, under a higher fence if the run named another; otherwise a run that names a capture is as it was |
| `CaptureCall.CallsDetermineBronze` | energy_platform/runtime/capture.py:38-100 | Bronze after any calls depends only on the calls and their fetch results |
| `CaptureCall.CaptureThenReconcile` | energy_platform/runtime/reconcile.py:17-65 | whatever acknowledgements are lost, the log is the one the calls determine, and a full reconcile names the newest payload of every logged instant |
| `Outage.BronzeIsItsSteps` | energy_platform/runtime/capture.py:76-100 | in any interleaving with other workers Bronze is its captures and decisions alone |
| `Outage.OutageIndependence` | energy_platform/runtime/reconcile.py:17-65 | interleavings with the same Bronze steps have the same Bronze, and from either ledger a full reconcile names the newest payload of every logged instant |
| `Reconcile.Latest` | energy_platform/runtime/reconcile.py:37-43 | the loop is the specification of the newest usable entries |
| `Reconcile.NewestOfIsNewest` | energy_platform/runtime/reconcile.py:39-43 | an entry is picked if and only if it is usable and no usable entry of its instant has a later attempt |
| `Reconcile.Merge` | energy_platform/runtime/reconcile.py:44-65 | the loop is the specification of ensuring and advancing each run |
| `Reconcile.Run` | energy_platform/runtime/reconcile.py:17-65 | the whole new ledger: decisions mirrored first, then each instant's run brought up to its newest standing entry |
| `Reconcile.ReconcileRules` | energy_platform/runtime/reconcile.py:32-65 | by the newest standing entry of each instant: a missing run is created, an unnamed one filled in, one on an earlier attempt captured anew under a higher fence if the payload differs and left alone if not; nothing else changes |
| `Reconcile.MergeAllSettles` | energy_platform/runtime/reconcile.py:45-64 | afterwards every merged entry has a run that names a capture and does not lag, and all other runs are as they were |
| `Reconcile.ReconcileTwice` | energy_platform/runtime/reconcile.py:17-65 | a second reconcile, over the window or any part of it, changes no run and bumps no fence |
| `Reconcile.ReconcileKeeps` | energy_platform/runtime/reconcile.py:17-65 | reconcile is made of system steps: the invariant survives and nothing is lost |
| `Reconcile.ReconcileNamesNewest` | energy_platform/runtime/reconcile.py:20-26 | from any reachable ledger, without invalidations, every logged instant's run names the payload of its newest attempt |
| `Process.One` | energy_platform/runtime/process.py:69-128 | which outcome is reported, for every case and no other: fenced off, entry or blob missing, ruled out, unmappable, processed, or a no-op; only a processed run changes Silver |
| `Process.WorkIsDecided` | energy_platform/runtime/process.py:69-128 | the decision table: which capture is read, and for every case the state, outcome, events and observations committed |
| `Process.TurnKeeps` | energy_platform/runtime/process.py:52-128 | an undisturbed claim and commit keep the invariant and lose nothing |
| `Process.TurnCovers` | energy_platform/runtime/process.py:69-128 | afterwards every version the run's usable capture maps to is stored |
| `Process.TurnIsFair` | energy_platform/runtime/process.py:75-76 | a worker's turn ends only its own attempt, and ends it ok only for a capture that no decision rules out |
| `Process.Run` | energy_platform/runtime/process.py:52-66 | reconcile, then, where nobody else holds a run, the pending runs in the order of their instants, as many as the limit lets: each has its versions stored, is processed if its capture maps, and is reported so; all other runs are as reconcile left them, only clean attempts end ok, and other targets are untouched |
| `Process.PendingIsNamed` | energy_platform/store/memory.py:308-317 | runs are claimed only when they name a capture |
| `Rebuild.Distinct` | energy_platform/runtime/drill.py:220-226 | the loop is the specification of the generations |
| `Rebuild.GenerationsKeepPayloads` | energy_platform/runtime/drill.py:220-226 | consecutive deduplication keeps every payload, and neighbours differ |
| `Rebuild.GenerationsAreChanges` | energy_platform/runtime/drill.py:220-226 | the generations are exactly the entries whose payload is not that of the entry just before |
| `Rebuild.ReplayEntry` | energy_platform/runtime/drill.py:232-239 | recapture, claim and process store every version of that entry and touch no other run's capture |
| `Rebuild.ReplayInstant` | energy_platform/runtime/drill.py:215-239 | afterwards every usable entry of the instant is covered and the run ends on the newest payload |
| `Rebuild.Target` | energy_platform/runtime/drill.py:198-240 | restore completeness: every capture of the replica that is not ruled out has all its versions stored, each instant's run names the newest usable payload and is processed if that maps, and no report fails exactly when every such capture maps |
| `Rebuild.FreshMerge` | energy_platform/runtime/reconcile.py:44-65 | reconciling into a ledger without the target creates exactly one captured run per newest entry |
| `Rebuild.MirrorAgrees` | energy_platform/runtime/reconcile.py:32-35 | after reconcile the ledger's decisions about the target are Bronze's, and Silver is untouched |
| `Drill.Bound` | energy_platform/runtime/drill.py:257-258 | the newest fetch instant of the replica's entries, none exactly when it has none |
| `Drill.ComparedRows` | energy_platform/runtime/drill.py:148-162 | exactly the observations of the target's own, standing rows within the bound |
| `Drill.Weigh` | energy_platform/runtime/drill.py:290-305 | one row of the pass: every pair's leader is of the newest derivation and the losers are counted once |
| `Drill.Live` | energy_platform/runtime/drill.py:261-306 | expected are the values of each pair's newest derivation, historical those of the others, and compared rows equal pairs plus historical versions |
| `Drill.LeaderIsNewest` | energy_platform/runtime/drill.py:281-303 | the expected version of a pair is under the derivation registered last, ids deciding ties, and it is the only one of that derivation |
| `Drill.CountRuns` | energy_platform/runtime/drill.py:307-334 | processed runs split into those the replica must have and those newer than it |
| `Drill.Count` | energy_platform/runtime/drill.py:437-443 | each unmatched fingerprint is counted once, as diverging exactly when its pair is known |
| `Drill.Divide` | energy_platform/runtime/drill.py:430-443 | expected versions split exactly into own-matched, sibling, missing and diverging |
| `Drill.NothingAbsent` | energy_platform/runtime/drill.py:434-443 | nothing missing and nothing diverging if and only if every expected version is in the rebuilt group |
| `Drill.Compare` | energy_platform/runtime/drill.py:404-494 | the whole verdict; ok if and only if nothing failed, no processed run is short, and every row live must have reproduced is in the rebuild with the value of live's newest derivation; every count by the stored rows |
| `Drill.ExpectedIsReproduced` | energy_platform/runtime/drill.py:497-516 | the expected set is reproduced if and only if every compared row's leader is |
| `Drill.ReproducedIffAnswered` | energy_platform/runtime/drill.py:261-306 | reproduced means, of the stored rows: every row of the target's own, from a capture nothing rules out and no newer than some entry of the replica, has its identity and payload in the rebuild with the value of the derivation registered last; newer rows make no difference |
| `Drill.ExpectedAre` | energy_platform/runtime/drill.py:279-306 | the expected values are those of the deciding rows, the historical ones those of the other rows |
| `Drill.RunsSeenAre` | energy_platform/runtime/drill.py:307-334 | the counted runs, of the stored runs and attempts: processed, standing, and known to the replica by capture or by the start of the attempt that tells |
| `Drill.ReproducedMeansValues` | energy_platform/runtime/drill.py:126-128 | a reproduced target, row by row: same identity, same payload, and the value live's newest derivation gives, in the target's own dataset and transport |
| `Restore.GroupIsGiven` | energy_platform/runtime/drill.py:170-180 | the rebuilt group holds exactly the versions and values that usable captures of the drilled targets give |
| `Restore.ReproducedIffGiven` | energy_platform/runtime/drill.py:434-443 | nothing missing and nothing diverging if and only if every version live expects is given by a usable capture of a drilled target |
| `Restore.RowReproduced` | energy_platform/runtime/drill.py:261-306 | a compared live row under the drill's derivation is given by the capture it came from, when captures up to the replica's newest are replicated |
| `Restore.LiveIsGiven` | energy_platform/runtime/drill.py:261-306 | every version live expects is given, whatever produced live; a capture newer than the replica is lag, never loss |
| `Restore.LiveIsReproduced` | energy_platform/runtime/drill.py:198-240 | for live after any interleaving, captures replicated up to the replica's newest and one running derivation: everything live expects is reproduced value for value |
| `RestoreDrill.StaysSound` | energy_platform/runtime/drill.py:216-219 | rebuilding one more target leaves the scratch store standing on usable captures of drilled targets only |
| `RestoreDrill.RebuildAll` | energy_platform/runtime/drill.py:530-538 | every target is rebuilt completely and soundly, later rebuilds keep earlier ones so, and a report failed exactly when a usable capture does not map |
| `RestoreDrill.NoRunIsShort` | energy_platform/runtime/drill.py:448-449 | when every usable capture maps, the rebuild has at least the processed runs of live that it must have |
| `RestoreDrill.CompareTarget` | energy_platform/runtime/drill.py:404-494 | zero missing and zero diverging exactly when all is given; under replication both are zero and the verdict is ok exactly when every usable capture maps; ok implies full reproduction |
| `RestoreDrill.Run` | energy_platform/runtime/drill.py:519-541 | the drill from end to end, over any targets, replica and reachable live: every target rebuilt and every verdict as stated |
| `Unmirrored.AllMissing` | energy_platform/runtime/drill.py:434-443 | what is expected of targets without a usable capture is all counted as missing |
| `Unmirrored.DecisionReadsAsMissing` | energy_platform/runtime/drill.py:216-219 | a run of live, fully replicated, whose unmirrored decision makes the version it expects not given |
| `Gaps.Entries` | energy_platform/runtime/gaps.py:82-84 | the newest entry of each logged instant |
| `Gaps.Detect` | energy_platform/runtime/gaps.py:73-123 | the new ledger and the gaps: the decision table, instant by instant, on the runs found at the start |
| `Gaps.ScanIdles` | energy_platform/runtime/gaps.py:86-122 | after a scan nothing is left to do about any expected instant, and other instants' runs are untouched |
| `Gaps.ScanRules` | energy_platform/runtime/gaps.py:85-122 | a scan over distinct instants is the decision table instant by instant, on the runs it found: the run afterwards, the gap reported, the alerts raised, in order, and nothing else |
| `Gaps.DetectTwice` | energy_platform/runtime/gaps.py:73-123 | a second scan at the same time returns the same gaps, changes no run and raises no event |
| `Scans.MoveIsStep` | energy_platform/runtime/gaps.py:88-139 | a turn of a scan, on whatever it read, and its alert are each at most one store call, a step of the system |
| `Scans.TurnIsStep` | energy_platform/runtime/gaps.py:86-122 | a turn with the alert it owes, undisturbed, is one turn of `detect_gaps`' loop |
| `Scans.IsRun` | energy_platform/runtime/gaps.py:73-139 | forgetting the scans, every history is a run of the system, so whatever holds of runs holds with scans among the workers |
| `Scans.Reachable` | energy_platform/runtime/gaps.py:82-122 | with any number of scans among the other workers the system's invariant holds at every point |
| `Scans.Reads` | energy_platform/runtime/gaps.py:82-85 | a scan that takes turns listed the log first and read the runs after it, and still holds exactly what it read |
| `Alerts.OnlyAlertsPark` | energy_platform/runtime/gaps.py:116-121 | only a turn that owes the alert next puts a run into the given-up state |
| `Alerts.LeavesBecause` | energy_platform/runtime/gaps.py:106-115 | a given-up run leaves that state only for a logged capture or by a scan that reopens it |
| `Alerts.AlertOrigin` | energy_platform/runtime/gaps.py:126-139 | every alert in the ledger was raised for a turn of its own that gave the instant up, and was owed from that turn on |
| `Alerts.ToldUnlessOwed` | energy_platform/runtime/gaps.py:116-121 | a turn that gave the instant up has raised its alert unless its scan still owes it |
| `Alerts.AlertIffTold` | energy_platform/runtime/gaps.py:116-139 | an instant has an alert if and only if a turn that gave it up was told; a parked instant has one unless a scan still owes it |
| `Alerts.TwoAlertsAreTwoTurns` | energy_platform/runtime/gaps.py:116-139 | two alerts for an instant are two turns that gave it up and were told, and the other way round |
| `Alerts.SecondAlertIff` | energy_platform/runtime/gaps.py:73-139 | in any history an instant is given up twice if and only if, after a turn that gave it up, a due turn's readings do not show its parking: read before it, or nothing parked, or the run left for an entry landed between the reads or by a reopening; a second alert needs that, and follows once no scan owes the alert |
| `Alerts.OneAtATimeIff` | energy_platform/runtime/gaps.py:73-139 | when scans run one at a time, an instant is given up twice if and only if a turn that gave it up parked nothing, or an entry landed between a later scan's two reads and the run left the parked state after it; a second alert needs that, and follows once no scan owes the alert |
| `Alerts.ParksNothingIff` | energy_platform/runtime/gaps.py:116-118 | a turn that gives the instant up parks nothing if and only if it read no run and other work has made one since that is not parked |
| `Alerts.CurrentScansAlertOnce` | energy_platform/runtime/gaps.py:73-139 | scans whose turns act on current readings raise at most one alert per instant, whatever else runs between them, and a parked instant has it unless a scan still owes it |
| `SecondAlerts.OverlappingScans` | energy_platform/runtime/gaps.py:79-121 | for any instant beyond a positive tolerance, a history of two overlapping scans, nothing else, with two alerts |
| `SecondAlerts.LateCapture` | energy_platform/runtime/gaps.py:79-121 | scans one at a time: an entry lands and is acknowledged between a scan's two reads, so the captured run is parked and alerted again |
| `SecondAlerts.NothingParked` | energy_platform/runtime/gaps.py:79-121 | scans one at a time: a turn parks nothing, as `ensure_run` leaves an existing run alone, and a later scan alerts again |
| `SecondAlerts.Reopened` | energy_platform/runtime/gaps.py:79-121 | with a source that serves a fixed span of history, a stale scan reopens the instant that a later one parked, and a third alerts again |
| `SecondAlerts.LostAlert` | energy_platform/runtime/gaps.py:116-121 | a scan stops between parking and alert, a later scan on current readings is silent, and the parked instant has no alert |
| `Cron.AddRange` | energy_platform/runtime/cron.py:40-40 | exactly the values a, a + step, ... up to b are added |
| `Cron.Field` | energy_platform/runtime/cron.py:20-41 | the union of the values the parts mean, refused if and only if a part is out of range |
| `Cron.NamesMeans` | energy_platform/runtime/cron.py:22-40 | which parts are valid and which values each means: every step-th of the field or range, or a value alone |
| `Cron.Parse` | energy_platform/runtime/cron.py:54-69 | exactly the values each field names, Sunday as 0 or 7, and which day fields are restricted; refused if and only if a field is |
| `Cron.MatchesText` | energy_platform/runtime/cron.py:71-80 | what matches, told from the text: a star day field puts no condition, and when neither is a star either may match |
| `Cron.Instants` | energy_platform/runtime/cron.py:83-94 | exactly the matching minutes in (start, end], in strict order |
| `Schedule.Latest` | energy_platform/runtime/schedule.py:52-69 | the maximum over the whole window although it is searched day by day, none exactly when nothing fires in it |
| `Schedule.Intended` | energy_platform/runtime/schedule.py:78-91 | a tick that fires within the last day, else the newest firing minute of the last 62 days, else this minute |
| `Intervals.DayTiles` | energy_platform/contracts/intervals.py:80-96 | aligned midnights make every day divisible, and its intervals reach from midnight to midnight |
| `Intervals.InSomeInterval` | energy_platform/contracts/intervals.py:80-96 | every instant lies in an interval of some local day |
| `Intervals.DayIsCut` | energy_platform/contracts/intervals.py:80-96 | a day is cut exactly when a number of steps fills it, into intervals of one step that follow one another from midnight to midnight |
| `Intervals.IndexMeans` | energy_platform/contracts/intervals.py:99-109 | the index counts from one and is refused exactly outside the day |
| `Intervals.InOneInterval` | energy_platform/contracts/intervals.py:80-96 | and in only one |
| `Intervals.IndexIsInjective` | energy_platform/contracts/intervals.py:99-109 | different days or indexes give different intervals |
| `Intervals.IndexIsOnto` | energy_platform/contracts/intervals.py:99-109 | every step of the grid is the interval of some day and index |
| `Intervals.QuarterFires` | energy_platform/runtime/cron.py:71-80 | the quarter-hour cadence fires exactly on multiples of fifteen minutes in every zone with such offsets |
| `Intervals.FiresAtStarts` | energy_platform/runtime/freshness.py:134-136 | its firing instants in a local day are exactly that day's interval starts, in order |
| `Mapping.MapRecords` | energy_platform/mapping/engine.py:53-87 | quarantine if and only if a record is refused or two values disagree; else the first emitted observation of each identity, in order, agreeing with every emitted one |
| `Mapping.OrderIndependent` | energy_platform/mapping/engine.py:53-87 | any permutation of the records is quarantined alike and gives the same identities with the same values |
| `RateLimiter.Bucket.Acquire` | energy_platform/fetch/client.py:141-151 | the new level: of the tokens earned, up to the capacity, one is spent at once, or the call sleeps until the missing part is earned and leaves none |
| `RateLimiter.Waits` | energy_platform/fetch/client.py:141-151 | a call that finds less than a token waits until the missing part is earned, and leaves none |
| `RateLimiter.AtOnce` | energy_platform/fetch/client.py:141-151 | a call that finds a token returns at once and spends exactly one of what was earned, up to the capacity |
| `RateLimiter.RateBound` | energy_platform/fetch/client.py:123-151 | calls that return within a span are at most the capacity plus what the span refills |
| `RateLimiter.WindowBound` | energy_platform/fetch/client.py:123-151 | the same as a count over any window and any sequence of call times |

## Left out

- The Postgres store, migrations, S3, file logs, HTTP, egress, secrets, the CLI, the MCP server, triage and harness code: I/O and library calls; each store call is modelled as one atomic step.
- Decoding, parsing and field coercion: one deterministic function, `Catalog.mapping`, stands for them; `Mapping` models the deduplicate-or-quarantine loop over an abstract per-record function.
- Quality events other than alerts, failures, refusals and quarantine (completeness, transport comparison), error texts and report texts: they change no run, row or view.
- MemoryStore.Store.CurrentRows: the presentation order of the rows and the ordering basis shown beside each are not stated; the view is a map by identity.
- Which instants a scan expects, and their order: a turn may take any instant of the scanned window that the scan has not dealt with; `Gaps.Detect` takes the list as given.
- Freshness, `max_age_cutoff`, `cadence_of` and the characters of a cron field: the tolerance, the cutoff and the split parts are parameters.
- The runs that `reconcile` returns as touched, and the loops of `backfill`, `recapture` and `replay`: they only choose which of the modelled steps to take.
- Cold-tier reads, `ingest` and log overwrites by `put`: not part of the capture path.
- Invariant.StepKeeps: a renewal is taken to end no earlier than the lease it extends; a negative or shrunken time to live is not modelled (nothing in the repository renews yet).
- Repair.RepairNeverDropped: parking is ruled out by hypothesis; `RepairScans.RepairNeverDropped` says for which scans it cannot happen, and `RepairScans.ScanCanDropRepair` that it does for others.
- Reconcile.ReconcileNamesNewest: targets without invalidations only; a run that already names an invalidated capture keeps it after reconcile.
- Process.Run: the coverage of captured runs is stated for a ledger in which nobody else holds a run of the target, as in the drill's scratch store; under contention only the invariant and what is kept are stated.
- Restore.LiveIsReproduced: assumes that a version determines its value and transport (`Determined`), that live's newest versions are under the running derivation, and that the replica does not change during the drill.
- RestoreDrill.Run: the verdict ok is stated for live's processed runs whose capture the replica has (`RunsReplicated`); an attempt that started before the replica's newest fetch but names a capture it lacks counts as a short run, as in the code.
- Outage.OutageIndependence: the equal captures of the two interleavings are a hypothesis; `CaptureCall.CallsDetermineBronze` derives them from the calls, one call at a time.
- Outage.BronzeIsItsSteps: a capture step takes its finished entry; the call that makes the entry is `CaptureCall.Run`.
- CaptureCall.Run: one call at a time; racing writers are `CaptureRace` and the interference of `BronzeStore.Bronze.Capture`.
- Rebuild.Target: the rebuilt current view need not be live's; what is stated is versions, values and the named payloads.
- Drill.Compare: the two digests and the message are not modelled; the historical and lagging counts are.
- ViewLaws.ReturnBecomesCurrent: that a stored version has the observation's transport and that a document has one observation per identity are hypotheses, which `Values.CommitsObeyViewLaws` discharges for every run; a fetch instant that the version already has adds no occurrence, so it is assumed new, as different captures have different fetch instants.
- An invalidation names a capture of its own target, so its target id is that of the capture.

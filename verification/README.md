# Provisioning and optical monitoring, verified

A Dafny model of the backend of an ISP network manager, with proofs about it. Five connected pieces are modelled:

1. **The provisioning order protocol.** An order moves from `pending` through `validating` and `running` to a terminal
   status while duplicate broker deliveries, phase failures, crashes and cancel requests interleave with it. Planning
   resolves and renders each template step, execution stores one row per step, a failure may trigger compensation in
   reverse order, and success materialises an ONU.
2. **Order creation.** Idempotency keys with payload hashes, retry links, serial recognition, cancellation.
3. **The signal reading worker and open alerts**, with its job protocol and the stale-job detector.
4. **Threshold resolution** over a scope hierarchy, and the TTL caches that stand before it and before command resolution.
5. **Monthly partitions**: month arithmetic, the name printer and parser, retention.

`dafny verify dfyconfig.toml` checks the whole project.

## How the model is built

| module | content |
|---|---|
| `Prelude`, `TtlLog` | options, identifiers, instants; what a TTL cache answers, as a function of the log of writes |
| `Thresholds`, `ThresholdCaching` | the scope hierarchy stated without an algorithm, the resolver's loops, the threshold cache class |
| `Alerts`, `SignalReading` | the alert table class against "spells" of violations; the batch loop of phase 3 |
| `CollectionJobs` | the job protocol as a state machine, and the job table class |
| `Calendar`, `Partitions` | dates, month addition, partition names, the two maintenance jobs over a catalogue class |
| `CommandCaching`, `Commands` | the command cache class, the catalogue query with its limit, rendering, the planning loop |
| `Orders` | order rows, the two unique indexes, the transactions on rows, the retry chain, the order table class |
| `Saga` | phase 3 and phase 4: results, judgement, rollback plan, the device as an arbitrary function of the texts sent |
| `OrderProtocol` | the state of the whole protocol, one event per transaction, request read or device call, and `Run` over a list of events |
| `OrderSafety`, `OrderOutcomes` | the invariant tying rows, step rows, worker variables and call logs together; what it says in every reachable state |
| `OrderTables`, `OrderLinks` | idempotency and retry links; one active order per ONU, materialisation, equal serials |
| `OrderValidation`, `OrderAttendance` | what phase 1 decides about an order; how a delivery ends, and that it leaves no order behind |
| `OrderAnswers` | where the answers about an order that is already active come from |
| `OrderBridge` | phase 1 and the planning of phase 4 as methods over cache and catalogue, composed with the protocol's events |
| `OrderDelivery`, `OrderFinality` | what an undisturbed delivery achieves; when a terminal status is final |
| `OrderRuns`, `OrderExample` | runs from a start state in which the protocol does what its documentation leaves out; one concrete order for them |

Each database session scope is one atomic step. `FOR UPDATE` and the unique indexes are guards of those steps. Row
identifiers, clock readings, what a query lists, what an adapter answers and where an error strikes are carried by the
events, so a theorem about every list of events is a theorem about every interleaving and every environment. Loops and
mutable objects of the program are methods and classes (`PersistResults`, `PlanRollback`, `PlanSteps`,
`PhasePersistReadings`, `ThresholdCache`, `CommandCache`, `AlertTable`, `OrderTable`, `JobTable`, `PartitionCatalog`),
each proved equal to the function that the state machines and the lemmas use. Orders that exist before a run are marked
`Archived` unless they are `pending`; the results about histories speak of the others.

Operations are not judged by their own definitions: statuses, keys, limits, texts and dates are written out in the
statements about them (`Busy`, `SamePayload`, `Spells`, `Overlaid`, `InForce`, `Violates`, `OrdinalClosedForm`). Small laws
without a row fix what a single event stands for (`DiscoveryMeaning`, `InventoryMeaning`, `RejectCloses`, `CrashEnds`,
`PhaseOneSkips`).

## Where the program differs from its own documentation

The model follows the code.

- Terminal order statuses are not absorbing: the failure and start marks update unconditionally. A confirmed cancellation
  can become FAILED (`CanceledThenFailed`, though nothing is ever sent: `CancelPrevails`), a FAILED order can run again
  (`OrderRuns.FailedThenRunning`). `OrderFinality.FinalIffSettled` says when a status is final without new deliveries,
  `OrderFinality.IrrevocableIff` with them. Job statuses behave alike (`FailedThenSuccess`, `SuccessThenFailed`,
  `CollectionJobs.FinalIffSettled`, `CollectionJobs.IrrevocableIff`). No order ever returns to PENDING, so commands are
  still sent at most once.
- `run_provisioning_order_sync` says that it never propagates an exception. One leaves it exactly when the closing update
  of a status other than ROLLED_BACK fails (`OrderRuns.EscapesIff`, `OrderRuns.EscapeRun`). The signal reading worker says
  the same, and lets one out exactly when its closing update fails (`CollectionJobs.EscapesIff`, `CollectionJobs.EscapeRun`).
- The rollback skips successful steps that the rollback map leaves out, and the order is still marked ROLLED_BACK
  (`RestoresIffAllMapped`, `RolledBackWithStepLeft`, `StepLeftBehind`). A rollback reply that is too short, even empty,
  counts as complete (`RolledBackReportsAllIff`, `ShortReplyRollsBack`, `EmptyReply`), and so does a provisioning reply:
  the order is SUCCESS (`SuccessReportsAllIff`, `ShortReplySucceeds`, `NothingReported`).
- The catalogue query lists eight rows with named models first, so it can hide the row that the preference asks for
  (`QueryPrefersIff`, `NamedRowsHideWideOnes`).
- `fail_policy` of a template and `overall_success` of a result are not read by the worker.
- The service looks for an index called `uq_prov_order_active_unique`, the migration creates
  `uq_provisioning_order_active` (`IndexNames`). The conflict answer therefore comes only from the read before the insert;
  a request that loses a race on that index gets the untranslated database error (`ConflictOrError`, `RaceIsUntranslated`,
  `RaceLost`). The index itself holds (`OneActiveOrderPerOnu`).
- The retried order is terminal when the request reads it (`RetryLinksWellFounded`); it may be running again when the new
  order is inserted (`RetryOfRunning`, `RetryWhileRunning`). A terminal order cannot become active again exactly when no
  delivery in flight has validated it and not yet marked it running (`TerminalForeverIff`).
- `date(year, month, 1)` is outside the try block of the drop job: a name with month 00 or 13 makes the whole job fail
  (`BadMonthAborts`). So does an old name that Python's `int` accepts but the drop function's pattern refuses, for instance
  one without the leading zero of the month (`ShortNameAborts`).

## Model

| member | source | states |
|---|---|---|
| `OrderOutcomes.SentAtMostOnce` | backend/app/domains/provisioning/services/provisioning_worker.py:296-317 | over every interleaving of duplicate deliveries, phase failures, crashes and cancellations: an order's plan is sent at most once, its rollback plan at most once and only after the plan, and an order whose cancel was confirmed sends nothing and has no step rows |
| `OrderOutcomes.CancelPrevails` | backend/app/domains/provisioning/services/provisioning_order_service.py:438-480 | once a cancel is confirmed, in every continuation of every run nothing was or is sent or undone for the order, no step row is stored, and its status is CANCELED or, overwritten by a failing delivery, FAILED |
| `OrderOutcomes.StatusTellsTruth` | backend/app/domains/provisioning/services/provisioning_worker.py:577-641 | in every reachable state the status of an order agrees with its device calls: SUCCESS means every result succeeded, PARTIAL a mixture none of whose failures is covered by the rollback map, ROLLED_BACK a covered failure and a fully successful rollback call, CANCELED no call |
| `OrderOutcomes.StepRowsFollowResults` | backend/app/domains/provisioning/services/provisioning_worker.py:577-607 | whatever the adapter replies, the step rows of an order are none, the refusal row alone, or one per result of its one device call, numbered from 1 with the key of each position |
| `OrderOutcomes.StepRowsShape` | backend/app/domains/provisioning/services/provisioning_worker.py:396-418 | with one result per command the persisted step rows are none, only row 0 of a refused validation, or exactly 1..n with the step keys of the stored template |
| `OrderOutcomes.SentPlansRenderTemplates` | backend/app/domains/provisioning/services/provisioning_worker.py:222-253 | whatever reached a device was planned completely: the i-th text is spelled piece by piece by the template of a catalogue row, literal text as it is and each field as its variable's value, the order's snapshot lying over the template's variables; the row is active, of the i-th step's command key, the OLT's model or all models and the version asked for, and the one that the query prefers in a listing of that key |
| `OrderOutcomes.FrozenForever` | backend/app/domains/provisioning/services/provisioning_worker.py:296-317 | a canceled, refused, abandoned or rolled-back order acquires no further history in any continuation |
| `OrderOutcomes.SentRollbackIsExact` | backend/app/domains/provisioning/services/provisioning_worker.py:645-709 | a rollback plan that was sent spells, for exactly the successful steps whose key the rollback map names and in strictly decreasing step order, the template of the catalogue row preferred for the command that the map gives |
| `OrderOutcomes.PlanningDecides` | backend/app/domains/provisioning/services/provisioning_worker.py:686-735 | the rollback phase calls the device exactly when there is something to undo and all of it resolves and renders; otherwise no command is sent and the failure exit makes the order FAILED |
| `OrderOutcomes.AbandonedForever` | backend/app/domains/provisioning/services/provisioning_worker.py:700-725 | an order whose rollback could not be planned never has a rollback command sent and never ends in another status than FAILED (or RUNNING when the last write was lost) |
| `OrderOutcomes.RolledBackRestores` | backend/app/domains/provisioning/services/provisioning_worker.py:645-787 | saga correctness over whole runs: a ROLLED_BACK order leaves the device as it was, given one result per command, rollback commands that undo their steps and a rollback map that covers the successful steps |
| `OrderOutcomes.RolledBackReportsAllIff` | backend/app/domains/provisioning/services/provisioning_worker.py:758-782 | an order that is ROLLED_BACK had every rollback command reported successful exactly when the reply is not shorter than the plan |
| `OrderOutcomes.SuccessReportsAllIff` | backend/app/domains/provisioning/services/provisioning_worker.py:606-641 | an order that is SUCCESS had every command of its plan reported successful exactly when the reply is not shorter than the plan |
| `OrderRuns.ShortReplySucceeds` | backend/app/domains/provisioning/services/provisioning_worker.py:577-641 | from any start state with a plannable order: a provisioning reply that is shorter than the plan and without a failure ends in SUCCESS, with commands not reported and fewer step rows than steps |
| `OrderExample.NothingReported` | backend/app/domains/provisioning/services/provisioning_worker.py:577-641 | one concrete run: SUCCESS after an empty reply to three commands, with no step row |
| `OrderRuns.ShortReplyRollsBack` | backend/app/domains/provisioning/services/provisioning_worker.py:758-782 | from any start state with a plannable order: a short all-successful rollback reply, even an empty one, ends in ROLLED_BACK with commands that were not reported |
| `OrderExample.EmptyReply` | backend/app/domains/provisioning/services/provisioning_worker.py:758-782 | one concrete run: ROLLED_BACK after an empty reply |
| `OrderRuns.RolledBackWithStepLeft` | backend/app/domains/provisioning/services/provisioning_worker.py:666-679 | from any start state with a plannable order: if the map leaves out a successful step and no rollback command reads like a step that took effect, the run ends ROLLED_BACK and some lawful device is not restored |
| `OrderExample.StepLeftBehind` | backend/app/domains/provisioning/services/provisioning_worker.py:666-679 | one concrete run: ROLLED_BACK with the first of three steps still on the device |
| `OrderSafety.StepKeepsInv` | backend/app/domains/provisioning/services/provisioning_worker.py:109-195 | every event of the protocol keeps the invariant that ties order rows, step rows, the local variables of each delivery and the logs of device calls together |
| `OrderSafety.ValidateKeepsInv` | backend/app/domains/provisioning/services/provisioning_worker.py:198-293 | phase 1 keeps it: claim, refusal or nothing, in one transaction |
| `OrderValidation.PhaseOneDecides` | backend/app/domains/provisioning/services/provisioning_worker.py:206-293 | phase 1 on a pending order: refused with row 0 when the template is missing or inactive, a required name is missing, the first step that cannot be planned is unresolved or lacks a variable, or the port is not found; failed without a trace when that step is malformed; otherwise taken with a complete plan |
| `OrderSafety.MarkRunningKeepsInv` | backend/app/domains/provisioning/services/provisioning_worker.py:535-565 | the unconditional start mark keeps it |
| `OrderSafety.ProvisionKeepsInv` | backend/app/domains/provisioning/services/provisioning_worker.py:141-159 | the device call keeps it, whatever the adapter reports and even when it raises |
| `OrderSafety.PersistKeepsInv` | backend/app/domains/provisioning/services/provisioning_worker.py:577-641 | recording the results keeps it |
| `OrderSafety.PlanUndoKeepsInv` | backend/app/domains/provisioning/services/provisioning_worker.py:645-735 | planning the rollback keeps it |
| `OrderSafety.DeprovisionKeepsInv` | backend/app/domains/provisioning/services/provisioning_worker.py:727-787 | the rollback call keeps it |
| `OrderSafety.MarkFinishedKeepsInv` | backend/app/domains/provisioning/services/provisioning_worker.py:954-996 | the closing update keeps it: only statuses that fit the history are written |
| `OrderSafety.MarkFailedKeepsInv` | backend/app/domains/provisioning/services/provisioning_worker.py:912-951 | the unconditional failure mark keeps it, whichever delivery writes it |
| `OrderSafety.CancelKeepsInv` | backend/app/domains/provisioning/services/provisioning_order_service.py:438-480 | cancellation under the row lock keeps it |
| `OrderProtocol.RunEvolves` | backend/app/domains/provisioning/services/provisioning_worker.py:535-565 | in no run does an order disappear, return to PENDING, lose its ONU, or change its key, hash, snapshot or retry link |
| `OrderDelivery.UndisturbedDelivery` | backend/app/domains/provisioning/services/provisioning_worker.py:109-195 | an undisturbed delivery of a pending order sends the plan once, stores one row per result and ends the order with the status its results are judged to; only SUCCESS goes on to materialisation |
| `OrderDelivery.UndisturbedRollback` | backend/app/domains/provisioning/services/provisioning_worker.py:176-192 | an undisturbed delivery that has to compensate, and can, sends the rollback plan once and ends ROLLED_BACK |
| `OrderDelivery.UndisturbedFailedRollback` | backend/app/domains/provisioning/services/provisioning_worker.py:727-787 | an undisturbed delivery whose rollback call raises, cannot be recorded or reports a failed command takes the failure exit: the order ends FAILED with the rollback plan in its history |
| `OrderAttendance.DoneOnlyBy` | backend/app/domains/provisioning/services/provisioning_worker.py:109-195 | a step of its own ends a delivery only when phase 1 refuses the order or finds it no longer pending, a closing status other than SUCCESS is written, the failure is marked, or materialisation is over |
| `OrderAttendance.FailureLeavesNoTrace` | backend/app/domains/provisioning/services/provisioning_worker.py:109-195 | a transaction of the delivery that fails leaves rows, step rows and history as they were: only the delivery moves, to its failure exit, to the escaped exception or to its end |
| `OrderAttendance.NoneLeftBehind` | backend/app/domains/provisioning/services/provisioning_worker.py:109-195 | over every run without a crash or a lost closing write: an order that is VALIDATING or RUNNING has the delivery that took it still at work, so no finished delivery leaves its order behind |
| `OrderDelivery.UndisturbedRequest` | backend/app/domains/provisioning/services/provisioning_order_service.py:156-415 | an undisturbed request with a free key, a retry source that has come to an end and a recognised serial creates exactly one pending order with its key, hash, OLT, port, retry link and snapshot, on the live ONU with its serial or on none |
| `OrderFinality.FinalIffSettled` | backend/app/domains/provisioning/services/provisioning_worker.py:912-996 | terminal statuses are not absorbing: without new deliveries of the order, its terminal status is final exactly when no delivery in flight is able to overwrite it |
| `OrderFinality.IrrevocableIff` | backend/app/domains/provisioning/services/provisioning_worker.py:912-951 | with duplicate deliveries included, FAILED is the only status that can be final, and it is exactly when no delivery in flight revives the order |
| `OrderFinality.TerminalForeverIff` | backend/app/domains/provisioning/services/provisioning_worker.py:535-565 | a terminal order stays terminal in every continuation exactly when no delivery in flight has validated it without having marked it running |
| `OrderRuns.CanceledThenFailed` | backend/app/domains/provisioning/services/provisioning_worker.py:118-125 | from any start state with a pending order: a run that confirms its cancellation, and one event later the order is FAILED |
| `OrderRuns.FailedThenRunning` | backend/app/domains/provisioning/services/provisioning_worker.py:535-565 | from any start state with a plannable order: a run that makes it FAILED, and one event later it is RUNNING |
| `OrderRuns.EscapesIff` | backend/app/domains/provisioning/services/provisioning_worker.py:109-195 | an exception leaves the worker exactly when the closing update of a status other than ROLLED_BACK fails |
| `OrderRuns.EscapeRun` | backend/app/domains/provisioning/services/provisioning_worker.py:109-195 | from any start state with a plannable order: a clean delivery whose closing update fails ends in that exception |
| `OrderTables.IdempotentCreation` | backend/app/domains/provisioning/services/provisioning_order_service.py:384-435 | over every request sequence and race: at most one order per key; every accepted request got the one order of its key, whose stored hash is absent or its own; a mismatch is answered only when that order has another hash |
| `OrderTables.MismatchChangesNothing` | backend/app/domains/provisioning/services/provisioning_order_service.py:417-435 | the two steps of one request: while its key belongs to an order with another hash, the first read answers with the mismatch and the insert creates nothing |
| `OrderTables.OneCreatorPerOrder` | backend/app/domains/provisioning/services/provisioning_order_service.py:384-435 | over every run: each order made in it belongs to exactly one request, the only one answered as its creator, whose key, hash and retry source it carries; so a mismatched or reusing request creates nothing |
| `OrderTables.OnePayloadPerOrder` | backend/app/domains/provisioning/services/provisioning_order_service.py:417-436 | all requests accepted for an order made in the run have the same key and the same payload hash |
| `OrderTables.RetryLinksWellFounded` | backend/app/domains/provisioning/services/provisioning_order_service.py:262-271 | from any order of any reachable state the retry links visit strictly earlier orders and end, and for each order of the chain made in the run, the request that created it read the next one as terminal before the order existed |
| `OrderTables.RunVouches` | backend/app/domains/provisioning/services/provisioning_order_service.py:262-271 | every request past V5 found its retry source terminal at its own read of it; every order made in the run has one creating request, with that read before the order existed |
| `OrderRuns.RetryOfRunning` | backend/app/domains/provisioning/services/provisioning_order_service.py:262-271 | from any start state with a plannable order: a run that inserts a retry of it while it is RUNNING, though the request read it as FAILED |
| `OrderExample.RetryWhileRunning` | backend/app/domains/provisioning/services/provisioning_order_service.py:262-271 | one concrete run of that kind |
| `OrderAnswers.ConflictOrError` | backend/app/domains/provisioning/services/provisioning_order_service.py:324-400 | over every run: a request gets the conflict answer exactly when its read of the ONU's orders saw an active one, and the untranslated database error exactly when its insert with a free key met an active order that its own earlier read had not seen |
| `OrderAnswers.RecognitionVouched` | backend/app/domains/provisioning/services/provisioning_order_service.py:273-303 | over every run: a request past V6 read a live ONU with its serial, or that there is none and a pending one waits on its port, and goes on with what it read |
| `OrderRuns.RaceIsUntranslated` | backend/app/domains/provisioning/services/provisioning_order_service.py:384-400 | from any start state: two requests for one ONU that read before either inserts, one is accepted and the other gets the database error |
| `OrderExample.RaceLost` | backend/app/domains/provisioning/services/provisioning_order_service.py:384-400 | one concrete run of that race |
| `Orders.IndexNames` | backend/app/domains/provisioning/services/provisioning_order_service.py:70-83 | the constraint lookup recognises the key index of the migration and not its index on the ONU, because the service searches for another name |
| `Orders.ChainMeaning` | backend/alembic/sql/0001_initial.sql:623-623 | the chain of retry links is finite and descends in creation order |
| `Orders.HitMeaning` | backend/app/domains/provisioning/services/provisioning_order_service.py:417-435 | with unique keys the answer is decided by the one order that has the key: reuse when it has no hash or this one, else the mismatch |
| `Orders.OrderTable.Insert` | backend/app/domains/provisioning/services/provisioning_order_service.py:358-400 | the insert with its two unique indexes: created, reused, mismatch or conflict, each exactly under its condition on keys, hashes and orders under way; the table changes only when created |
| `Orders.OrderTable.Cancel` | backend/app/domains/provisioning/services/provisioning_order_service.py:438-480 | cancel succeeds exactly on a PENDING order, tells the status otherwise, and changes nothing else |
| `Orders.OrderTable.Claim` | backend/app/domains/provisioning/services/provisioning_worker.py:296-317 | only a PENDING order is claimed; it leaves PENDING in the same transaction |
| `Orders.OrderTable.MarkRunning` | backend/app/domains/provisioning/services/provisioning_worker.py:535-565 | unconditional update that only the partial unique index can reject |
| `Orders.OrderTable.Finish` | backend/app/domains/provisioning/services/provisioning_worker.py:912-996 | unconditional update to a terminal status |
| `OrderLinks.MaterialisationSound` | backend/app/domains/provisioning/services/provisioning_worker.py:1000-1177 | in every reachable state: at most one ONU inserted per order, order and resolved pending ONU both name it, and a linked pending ONU has the serial of its ONU |
| `OrderLinks.MaterializesIff` | backend/app/domains/provisioning/services/provisioning_worker.py:1061-1177 | an ONU is inserted exactly for an order without one whose serial has an active pending ONU of known model and no live ONU |
| `OrderLinks.MaterializeDecides` | backend/app/domains/provisioning/services/provisioning_worker.py:1000-1177 | of all pending ONUs materialisation changes only the one on the order's OLT and port with the serial of its snapshot: it is resolved exactly when it was active and the order has its ONU, the model is unknown, or no live ONU has the serial; its link is then the order's ONU if there is one |
| `OrderLinks.OneActiveOrderPerOnu` | backend/alembic/versions/0007_prov_order_active_unique.py:13-20 | at no time do two active orders name the same ONU, and live serials stay unique |
| `OrderLinks.EnterKeepsTables` | backend/app/domains/provisioning/services/provisioning_order_service.py:273-303 | serial recognition makes a new order name only an ONU with the payload's serial |
| `OrderLinks.MaterializeOrderKeepsTables` | backend/app/domains/provisioning/services/provisioning_worker.py:1000-1177 | each of the three materialisation cases keeps the links between orders, ONUs and pending ONUs |
| `OrderLinks.RunKeepsPendings` | backend/app/domains/collection/services/discovery_worker.py:332-381 | however discoveries and materialisations interleave: no pending ONU disappears or loses its model, its state and link change only when it is resolved, and a resolved one stays as it was resolved |
| `Saga.PersistResults` | backend/app/domains/provisioning/services/provisioning_worker.py:577-641 | one row per result, and the outcome is the unique judgement of the results |
| `Saga.OutcomeJudges` | backend/app/domains/provisioning/services/provisioning_worker.py:606-641 | the computed outcome is the only one that meets the declarative judgement: rollback exactly when a failed step's key is in the rollback map; SUCCESS, PARTIAL and FAILED as documented |
| `Saga.RowsMeaning` | backend/app/domains/provisioning/services/provisioning_worker.py:587-606 | row i carries number i, the step key of position i or __pos_i__, and the reported verdict |
| `Saga.PositionsMeaning` | backend/app/domains/provisioning/services/provisioning_worker.py:606-609 | the collected step orders are exactly the positions with that verdict, increasing |
| `Saga.RecordSteps` | backend/app/domains/provisioning/services/provisioning_worker.py:583-610 | the loop over the step results |
| `Saga.PlanRollback` | backend/app/domains/provisioning/services/provisioning_worker.py:645-709 | the planning loop: its plan is the specified one for the answers of one pass over the steps to undo, each the cached answer of the latest query of its key while that is younger than the TTL by the clock, else that of a new query |
| `Saga.RollbackPlanMeaning` | backend/app/domains/provisioning/services/provisioning_worker.py:645-735 | a plan is ready exactly when every step to undo resolves and renders; then it is their rollback entries in strictly decreasing step order and nothing else |
| `Saga.RollbackPlanFails` | backend/app/domains/provisioning/services/provisioning_worker.py:645-725 | otherwise the plan is an error exactly when some step to undo resolves to a row that does not render, and else names exactly the commands that the catalogue does not have |
| `Saga.SagaRestores` | backend/app/domains/provisioning/services/provisioning_worker.py:577-787 | provisioning, a complete rollback plan and successful rollback results leave every device that obeys the undo law in its initial state |
| `Saga.RollbackRestores` | backend/app/domains/provisioning/services/provisioning_worker.py:645-709 | undoing all successful steps, last first, restores the device |
| `Saga.RestoresIffAllMapped` | backend/app/domains/provisioning/services/provisioning_worker.py:666-679 | when no rollback command reads like a step that took effect: full restoration for every lawful device is guaranteed exactly when the rollback map covers every successful step |
| `Saga.LeavesBehind` | backend/app/domains/provisioning/services/provisioning_worker.py:666-679 | when no rollback command reads like a step that took effect: a successful step that the map leaves out stays on some device that obeys the undo law |
| `Saga.BalanceRemains` | backend/app/domains/provisioning/services/provisioning_worker.py:666-679 | what stays behind on the counting device is one effect per successful step that was not undone |
| `Saga.ToggleRestores` | backend/app/domains/provisioning/services/provisioning_worker.py:666-679 | without the proviso on the texts the equivalence fails: one mapped step out of three equal toggles restores every device |
| `Commands.QueryPrefersInSmallTables` | backend/app/domains/provisioning/services/provisioning_worker.py:447-495 | with at most eight active rows: the exact model first, then manufacturer-wide, else nothing |
| `Commands.QueryPrefersIff` | backend/app/domains/provisioning/services/provisioning_worker.py:466-495 | in any table the limit of eight defeats the preference exactly when it cuts off every row of the class that should win |
| `Commands.NamedRowsHideWideOnes` | backend/app/domains/provisioning/services/provisioning_worker.py:470-475 | eight active rows that name a model hide every manufacturer-wide row |
| `Commands.WindowKeepsGreatest` | backend/app/domains/provisioning/services/provisioning_worker.py:470-475 | what the limit of eight cuts off: rows for all models before rows that name one, and of those the ones with smaller ids |
| `Commands.QueryNeverForeign` | backend/app/domains/provisioning/services/provisioning_worker.py:447-495 | the answer is always an active row of this manufacturer and key, for this model or for all, at a compatible version |
| `Commands.QueryNormalizedCommand` | backend/app/domains/provisioning/services/provisioning_worker.py:476-495 | the two passes over the listed rows compute the query and meet the preference on the window |
| `Commands.RendersIff` | backend/app/domains/provisioning/services/provisioning_worker.py:518-531 | rendering succeeds exactly when the template is well formed and every variable is present |
| `Commands.RenderSpells` | backend/app/domains/provisioning/services/provisioning_worker.py:518-531 | the rendered text is exactly the one that the pieces spell, literal text as it is and each field as the value of its variable |
| `Commands.RenderFails` | backend/app/domains/provisioning/services/provisioning_worker.py:518-531 | rendering fails at the first piece that cannot be rendered: validation for a missing variable, an error for a malformed field |
| `Commands.ResolveNormalizedCommand` | backend/app/domains/provisioning/services/provisioning_worker.py:422-444 | the answer is that of the latest catalogue query of this key while it is younger than the TTL by the clock, else that of a new query of the given listing, which the cache then remembers |
| `Commands.CacheRemembers` | backend/app/domains/provisioning/services/command_cache.py:69-89 | the cache hits exactly when the key's latest query is younger than the TTL, and answers what that query answered |
| `Commands.AnswerIsFromCatalogue` | backend/app/domains/provisioning/services/provisioning_worker.py:447-495 | an answer is an active, compatible row of the key's manufacturer and command in the listing, the preferred one of its first eight rows |
| `Commands.PassMeaning` | backend/app/domains/provisioning/services/provisioning_worker.py:222-253 | in one planning pass every key is answered by a query of that key stored less than the TTL before, earlier or in the pass |
| `Commands.PlanMeaning` | backend/app/domains/provisioning/services/provisioning_worker.py:222-253 | a plan exists exactly when every step resolves and renders; then its i-th command has the i-th step's key, the text that the resolved template spells and its timeout |
| `Commands.PlanStops` | backend/app/domains/provisioning/services/provisioning_worker.py:222-253 | otherwise the first step that cannot be planned decides: a refusal when it is unresolved or lacks a variable, an error when its template is malformed |
| `Commands.PlanSteps` | backend/app/domains/provisioning/services/provisioning_worker.py:222-253 | the planning loop: its plan is that of one pass of resolutions over the steps, together with the position-to-key map, or it stops at the first failing step |
| `Commands.PlannedFromCatalogue` | backend/app/domains/provisioning/services/provisioning_worker.py:222-257 | every command of a complete plan renders a preferred catalogue row of its step's key, listed less than the TTL before it was asked for |
| `OrderBridge.PassPlans` | backend/app/domains/provisioning/services/provisioning_worker.py:222-257 | whatever the planning loop ensures about its pass, complete or stopped at a failing step, its plan is the one that the protocol derives from the listings that answered |
| `OrderBridge.ExamineOrder` | backend/app/domains/provisioning/services/provisioning_worker.py:206-293 | phase 1 after the lock, cache and catalogue included: commands and step keys, refusal or error are those of the Validate event that carries the listings that answered |
| `OrderBridge.PassPlansUndo` | backend/app/domains/provisioning/services/provisioning_worker.py:665-725 | the same for phase 4: a pass that is complete or ended by a rendering error yields the rollback plan that the protocol derives from the listings that answered |
| `OrderBridge.PlanCompensation` | backend/app/domains/provisioning/services/provisioning_worker.py:645-698 | the planning of phase 4 yields the plan of the PlanUndo event, for the order and the template as they are then |
| `Commands.StepKeysInjective` | backend/app/domains/provisioning/schemas/raw_template.py:47-60 | for a stored template positions 1..n and step keys determine each other |
| `CommandCaching.CommandCache.Get` | backend/app/domains/provisioning/services/command_cache.py:69-83 | get answers as the log of writes says, and evicts an expired entry without changing any later answer |
| `CommandCaching.CommandCache.Put` | backend/app/domains/provisioning/services/command_cache.py:85-89 | put adds one write to the log |
| `TtlLog.HitMeaning` | backend/app/domains/optical/services/threshold_cache.py:76-89 | a hit with v means exactly that the latest write touching the key is a put of v younger than the TTL |
| `TtlLog.EvictionInvisible` | backend/app/domains/optical/services/threshold_cache.py:76-89 | lazy eviction of an expired entry changes no later answer |
| `TtlLog.AppendWrite` | backend/app/domains/optical/services/threshold_cache.py:91-113 | how one more write changes the answer for a key |
| `ThresholdCaching.ThresholdCache.Get` | backend/app/domains/optical/services/threshold_cache.py:76-89 | the answer of the log of writes; a stored None is a hit, distinct from a miss |
| `ThresholdCaching.ThresholdCache.PutBulk` | backend/app/domains/optical/services/threshold_cache.py:91-102 | one write that covers all metrics given |
| `ThresholdCaching.ThresholdCache.InvalidateOnu` | backend/app/domains/optical/services/threshold_cache.py:104-109 | drops exactly the entries of one ONU |
| `ThresholdCaching.ThresholdCache.Clear` | backend/app/domains/optical/services/threshold_cache.py:111-113 | drops every entry |
| `ThresholdCaching.HitReadsLatestLoad` | backend/app/domains/optical/services/threshold_cache.py:76-102 | a hit on any metric reads the latest load of its ONU |
| `ThresholdCaching.HitsFormOneSnapshot` | backend/app/domains/collection/services/signal_reading_worker.py:318-327 | hits on all supported metrics, read at different instants, come from one single load: no torn snapshot |
| `Thresholds.ResolvePoliciesForOnu` | backend/app/domains/optical/services/threshold_cache.py:30-63 | the two loops compute the resolution |
| `Thresholds.ResolveMeetsHierarchy` | backend/app/domains/optical/services/threshold_cache.py:44-63 | per supported metric: the limits, severity and identity of the first-listed policy at the most specific scope, None exactly when there is none |
| `Thresholds.EffectiveIsUnique` | backend/app/domains/optical/services/threshold_cache.py:30-35 | the hierarchy determines one value per metric |
| `Thresholds.ResolveIgnoresOrder` | backend/app/domains/optical/services/threshold_cache.py:36-42 | with one policy per (metric, scope) the listing order does not matter |
| `Thresholds.LessSpecificIrrelevant` | backend/app/domains/optical/services/threshold_cache.py:44-51 | less specific policies do not change a metric that a more specific one governs |
| `Thresholds.QueryOrderIrrelevant` | backend/app/domains/collection/services/signal_reading_worker.py:328-349 | for the table's unique index, any two listings of one ONU's policies resolve alike |
| `Thresholds.ResolvesPolicyInForce` | backend/app/domains/collection/services/signal_reading_worker.py:328-349 | end to end from the table: what is resolved for an ONU is its own active policy for the metric, else its PON port's, else its OLT's, else the global one, else nothing |
| `SignalReading.HasCriticalViolation` | backend/app/domains/collection/services/signal_reading_worker.py:376-392 | the flag is set exactly when some alarm of the reading is under a critical policy |
| `SignalReading.AlarmsAreTheAlarms` | backend/app/domains/collection/services/signal_reading_worker.py:247-263 | the collected alarms are exactly the metrics whose value violates the policy in force |
| `SignalReading.AlarmsAreViolations` | backend/app/domains/collection/services/signal_reading_worker.py:247-263 | a reading alarms for a metric exactly when its value is below the minimum or above the maximum of the policy that governs the metric in its listing |
| `SignalReading.ResolveThresholdsWithCache` | backend/app/domains/collection/services/signal_reading_worker.py:309-349 | the thresholds used are the whole resolution of one listing of this ONU, either read now or stored less than TTL before the last reading of the clock |
| `SignalReading.PersistReading` | backend/app/domains/collection/services/signal_reading_worker.py:225-263 | one row with the critical flag and one upsert per alarm under the same thresholds, judged at the instant of the last of its clock readings |
| `SignalReading.PhasePersistReadings` | backend/app/domains/collection/services/signal_reading_worker.py:205-265 | the batch loop: counts, rows and alert events are those of the record of the batch, whose instants are the readings of the clock, in order |
| `SignalReading.BatchMeaning` | backend/app/domains/collection/services/signal_reading_worker.py:205-265 | unknown + persisted is the number of readings, PARTIAL exactly when some serial is unmapped, every known reading judged by one snapshot of its own ONU, listed for that reading at its judgement or for an earlier one less than TTL ago |
| `SignalReading.BatchAlarms` | backend/app/domains/collection/services/signal_reading_worker.py:225-263 | what the batch stores for a known reading: one alert event for each such violation, with the policy, value and subject, and a row that is critical exactly when one of the violated policies is |
| `SignalReading.TimedMeaning` | backend/app/domains/collection/services/signal_reading_worker.py:205-265 | the instants of judgement lie within the batch and never go back |
| `SignalReading.PersistAndDecide` | backend/app/domains/collection/services/signal_reading_worker.py:116-138 | phase 3 and the job status it decides; each judgement falls between the begin and the end of the phase by the clock, in the order of the readings |
| `Alerts.OpenAlertIsSpell` | backend/app/domains/collection/services/signal_reading_worker.py:451-484 | a subject has an open alert exactly when its current spell is not empty, and it carries the first violation's time and the last one's value |
| `Alerts.RunWellFormed` | backend/app/domains/optical/services/optical_alert.py:112-127 | at most one open alert per (ONU, metric), and resolved_at is set exactly when resolved |
| `Alerts.RowsOnlyGrow` | backend/app/domains/optical/services/optical_alert.py:72-127 | no row disappears or moves back, and a row that left the open state keeps its value |
| `Alerts.StatusFollowsRequests` | backend/app/domains/optical/services/optical_alert.py:72-127 | after any sequence of readings and requests a row is resolved once that was asked, acknowledged if only that was asked, and open otherwise |
| `Alerts.ResolvedAtFirstRequest` | backend/app/domains/optical/services/optical_alert.py:112-127 | its resolution time is that of the first request to resolve it |
| `Alerts.AlertTable.UpsertOpenAlert` | backend/app/domains/collection/services/signal_reading_worker.py:451-484 | updates the open alert or inserts one |
| `Alerts.AlertTable.AcknowledgeAlert` | backend/app/domains/optical/services/optical_alert.py:72-110 | acknowledges an open alert only |
| `Alerts.AlertTable.ResolveAlert` | backend/app/domains/optical/services/optical_alert.py:112-127 | resolves an alert that is not resolved |
| `CollectionJobs.JobSafety` | backend/app/domains/collection/services/signal_reading_worker.py:150-181 | over every interleaving of creations, duplicate deliveries, errors of any phase and overlapping detectors: one active job per OLT and kind, at most one adapter call per job |
| `CollectionJobs.NeverActiveAgain` | backend/app/domains/collection/services/signal_reading_worker.py:165-181 | a job that has left pending and running never comes back |
| `CollectionJobs.UndisturbedDelivery` | backend/app/domains/collection/services/signal_reading_worker.py:76-138 | an undisturbed delivery of a pending job calls the adapter once and ends SUCCESS, or PARTIAL exactly when a serial was unknown |
| `CollectionJobs.NoneLeftBehind` | backend/app/domains/collection/services/signal_reading_worker.py:80-138 | over every run without a crash or a lost closing write, a job that got to RUNNING has a delivery still at work |
| `CollectionJobs.DetectorFailsStale` | backend/app/tasks/collection.py:92-121 | the detector fails exactly the running jobs started before its cutoff and the pending jobs created before it |
| `CollectionJobs.FinalIffSettled` | backend/app/domains/collection/services/signal_reading_worker.py:487-523 | without new deliveries, a terminal job status is final exactly when no delivery in flight and no detector that has selected the job can overwrite it |
| `CollectionJobs.IrrevocableIff` | backend/app/domains/collection/services/signal_reading_worker.py:80-97 | with duplicate deliveries included, FAILED is the only job status that can be final, exactly when no delivery past loading can overwrite it |
| `CollectionJobs.FailedThenSuccess` | backend/app/tasks/collection.py:92-122 | a run in which the detector fails a job and its worker then reports success |
| `CollectionJobs.SuccessThenFailed` | backend/app/domains/collection/services/signal_reading_worker.py:80-97 | a run in which a job ends SUCCESS and a duplicate delivery that fails while reading makes it FAILED |
| `CollectionJobs.EscapesIff` | backend/app/domains/collection/services/signal_reading_worker.py:80-138 | over every run: an exception leaves the reading worker of a delivery exactly when its closing update fails after the readings were stored |
| `CollectionJobs.EscapeRun` | backend/app/domains/collection/services/signal_reading_worker.py:124-138 | a run in which that happens and the job stays RUNNING |
| `CollectionJobs.JobTable.Insert` | backend/alembic/versions/0003_collection_running_unique.py:32-34 | the partial unique index admits a job exactly when no active one of its kind exists |
| `CollectionJobs.JobTable.LoadAndMarkRunning` | backend/app/domains/collection/services/signal_reading_worker.py:150-181 | lock, load and mark running: only a PENDING job whose OLT is free is claimed; any other error leaves the table alone, whatever the job's status |
| `CollectionJobs.JobTable.FailStale` | backend/app/tasks/collection.py:109-121 | the update loop fails exactly the selected jobs |
| `Partitions.NameRoundTrip` | backend/alembic/versions/0006_partition_function_recreate.py:38-41 | the drop job reads back the month that the create function printed |
| `Partitions.PrintedLayout` | backend/alembic/versions/0006_partition_function_recreate.py:38-41 | the layout of a name: the table's name, four digits, an underscore, two digits |
| `Partitions.ParseSafeName` | backend/app/tasks/partitions.py:96-111 | every name of the safe pattern parses and is the printed form of what it parses to |
| `Partitions.DropsExactlyWholeOldMonths` | backend/app/tasks/partitions.py:77-123 | a recognised month is dropped exactly when all its days precede the first of the cutoff month |
| `Partitions.DropsByRetention` | backend/app/tasks/partitions.py:77-123 | by day numbers: a printed month is dropped exactly when it lies before the month of the day that is the retention before today; the default partition never is |
| `Partitions.RetentionSafety` | backend/app/tasks/partitions.py:77-123 | no day within the retention period is lost |
| `Partitions.NeverDropsEnsured` | backend/app/tasks/partitions.py:46-123 | no month that is ensured on a day is dropped on that day |
| `Partitions.EnsuredMonths` | backend/app/tasks/partitions.py:46-63 | the partitions ensured on a day are exactly those of its month and of the three months after it |
| `Partitions.RangesTile` | backend/alembic/versions/0006_partition_function_recreate.py:38-48 | the ensured months form gap-free ranges that do not overlap |
| `Partitions.BadMonthAborts` | backend/app/tasks/partitions.py:101-112 | a name with an impossible month makes the whole drop job fail |
| `Partitions.IntIsLenient` | backend/app/tasks/partitions.py:96-103 | what Python's int makes of unusual digits strings: blanks around, a sign in front and single underscores inside are accepted, and nothing else of the kind |
| `Partitions.BareNameIsRead` | backend/app/tasks/partitions.py:92-111 | a child table named without the table's prefix is read just as well, and its name is refused by the database function |
| `Partitions.ShortNameAborts` | backend/app/tasks/partitions.py:96-122 | one more child table named without the leading zero of its month makes the drop job fail exactly when that month is old |
| `Partitions.PartitionCatalog.EnsurePartitions` | backend/app/tasks/partitions.py:46-63 | creates the current month and the three ahead, or nothing |
| `Partitions.PartitionCatalog.DropOldPartitions` | backend/app/tasks/partitions.py:67-123 | removes exactly the old recognised months, or nothing when it raises; it completes exactly when every listed name allows it |
| `Calendar.AddMonthsIndex` | backend/app/tasks/partitions.py:37-41 | month addition is addition on 12 * year + month - 1 |
| `Calendar.AddMonthsComposes` | backend/app/tasks/partitions.py:37-41 | and therefore composes |
| `Calendar.MinusDaysOrdinal` | backend/app/tasks/partitions.py:78-79 | subtracting days moves the day number back by as many |
| `Calendar.BeforeIsOrdinalOrder` | backend/app/tasks/partitions.py:112-114 | calendar order is the order of day numbers |
| `Calendar.OrdinalClosedForm` | backend/app/tasks/partitions.py:78-79 | the day number in closed form: month lengths and leap years are those of the Gregorian calendar |

The device is an arbitrary function from texts to device states. "Undoes" means that sending the rollback command right
after its step leaves every device state unchanged. `RestoresIffAllMapped` assumes in addition that no rollback command
of the run reads like a step that took effect; `ToggleRestores` shows why. The direction that matters for safety,
`SagaRestores` and `RolledBackRestores`, does without that assumption.

## Left out

- HTTP routes, schemas, pagination, logging, audit rows, the frontend, CRUD services, the migration runner.
- SSH adapters, secrets, tokens and hashing: the adapter is what it answers, a payload hash is an opaque string, and that
  the hash does not depend on the idempotency key is not modelled.
- SQL and thread interleaving inside one cache call; sessions are atomic, acknowledging and resolving an alert included.
- The advisory lock per OLT: it is one of the reasons why phase 1 may fail, and excludes nothing afterwards.
- `Numeric` rounding and floats: values are exact reals. Truncation of outputs to 65,536 characters.
- `failure_reason`, `finished_at`, `result_summary`, rollback rows, command logs, the ONU's runtime state, durations.
- The checks V1 to V4 and V7 of order creation: a request may be rejected at any point instead. V5, V6, V8 and the
  insert's guards are modelled.
- What a database error says besides the name of the violated index.
- A JSON snapshot is a map of strings; a template variable that is a list or a number, format specifications and
  attribute access in a format string are one case, `Malformed`.
- The index of an ONU on its port and the unique index on it: that insert error is one of the swallowed errors of
  materialisation.
- Deleting orders: no code does it, so the branches for a vanished order are not modelled.
- `invalidate` and `clear` of the command cache, which the worker never calls.
- Python's `int` on digits outside ASCII and on exotic blanks. C-locale collation of identifiers.
- Two row numbers per order cannot collide in the model because rows are only appended to an empty list, which the
  invariant proves; the unique constraint on step rows is therefore not a guard of its own.
- `seq` and `map` stand for tables in the state machines; the classes show the update in place of single tables.
- StepRowsShape: needs the adapter's contract of one result per command and a stored template; StepRowsFollowResults needs neither.
- FinalIffSettled: speaks of continuations without new deliveries of the order or job; the two lemmas IrrevocableIff admit them.
- RestoresIffAllMapped: assumes that no rollback command reads like a step that took effect, see above.
- MismatchChangesNothing: speaks of the steps of one request; OneCreatorPerOrder and IdempotentCreation speak of runs.
- SagaRestores: says nothing about commands of other orders sent to the same device in between; the device state is the one these commands act on.

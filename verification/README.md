# LogiTrack recovery model

LogiTrack tracks deliveries: a simulator publishes telemetry to Kafka, a Java API consumes it and
keeps deliveries, orders and alerts, a Python service plans routes, and a set of scripts guards the
production cutover. What it promises is recovery without loss, duplication or endless retry. This
project models the code that promise rests on and proves it for every run.

Each module gives the source's operations as functions on values, a transition system with one step
per atomic action (a transaction, a lock section, a broker append, a crash), an invariant kept by
every step, and main results about every run. The stateful classes and loops of the source appear
as classes and methods proved against those functions.

| file | what it models |
|---|---|
| `OffsetTracker.dfy`, `SimulatorLoop.dfy` | contiguous offset commits and the simulator's poll, complete, drain, commit and quarantine loop with crashes |
| `Steps.dfy`, `Pipeline.dfy`, `EndToEnd.dfy` | progress arithmetic, the telemetry pipeline from simulator runs to tables, and that pipeline together with the commit loop |
| `Deliveries.dfy`, `Orders.dfy`, `Telemetry.dfy` | the delivery entity, orders coupled to deliveries with their outbox, the telemetry consumer |
| `RouteCache.dfy`, `RoutePlanner.dfy` | the LRU cache as a recency window, and single-flight planning under asyncio |
| `RouteSampling.dfy`, `RouteDeviation.dfy` | arc-length sampling and minimum clamped projection over reals |
| `DeadLetterCatalog.dfy`, `DeadLetterRecovery.dfy`, `RecoveryPlans.dfy` | source-position headers and cataloguing, replay and discard, batch plans whose events commit before the plan |
| `Outbox.dfy` | bounded backoff, dead rows and audited retries |
| `AlertPolicies.dfy`, `Alerts.dfy` | the audited policy table, and alert hysteresis |
| `RateLimiter.dfy` | fixed windows with a bounded subject table and an overflow counter |
| `CutoverLedger.dfy` | the five cutover scripts on one ledger |

Assumptions shared by the models: each transaction is one atomic step, except that batch plans and
their events are separate transactions; clocks do not run backwards; telemetry is stamped by one
strictly increasing clock; UUIDv5 ids (section 5.5 of RFC 9562) and SHA-256 digests are injective;
a log position holds one record.

## Where the code does not do what it is meant to

- `RateLimiter.AdmitsAtMostLimit`: the window count is a Java `int`. After 2^31 charges to one
  counter in one window it wraps and admits again, so the limit holds exactly below that;
  `WrappedCounterAdmitsTooMany` is such a run.
- `CutoverLedger.FenceHoldsIffNoneHarmful`: every script writes back the ledger copy it read before
  its long outside work. A rollback fence declared meanwhile is lost (`OverlapLosesFence`); it holds
  for good exactly when no forward script, no script that read other roots, no other declaration
  and no recovery other than the recorded one was in flight.
- `CutoverLedger.RecoveryIsFinalIffNoneReopens`: for the same reason a rollback can be completed
  twice (`OverlapRecoversTwice`). It is final exactly when no recovery is in flight, no declaration
  within its deadline, and no apply or verification whose ledger can still be rolled back.
- `AlertPolicies.KeyForFinishedReset` and `KeyForFinishedRestore`: the service binds a request key
  to an existing audit row, but `V29__immutable_audit_records.sql` rejects every update of that
  table, so in the deployed schema (`frozen`) such a retry is always refused
  (`LateResetKeyNeedsUpdates`, `LateRestoreKeyNeedsUpdates`).
- `DeadLetterCatalog.BinaryRoundTrip`: a binary header whose bytes all are ASCII digits is read as
  decimal text; the first such value is 0x30303030 (0x3030303030303030 for offsets).
- `Outbox.DelayValue`: the exponent is capped at 8 before the 300 second cap applies, so the longest
  delay is 256 seconds.

## Model

| member | source | states |
|---|---|---|
| Pipeline.AppliedIsAPrefixOfThePlan | simulator/logitrack_sim/main.py:279-301 | In every run of crashes, restarts (with or without resume), duplicate and interleaved simulations, rewinds of the consumer, commands and other traffic, the applied telemetry is steps 1..m in order with strictly increasing times, none is rejected, and the row stands at step m |
| Pipeline.InterleavingsRefineTheCleanRun | api/src/main/java/io/logitrack/event/TelemetryConsumer.java:28-47 | However m steps came to be applied, m = 0 included, the steps applied, position, progress and status equal those of one crash-free run of m steps |
| Pipeline.UntouchedUntilApplied | api/src/main/java/io/logitrack/event/TelemetryConsumer.java:28-47 | In every run the delivery row stays as created until its first telemetry is applied, and applied telemetry is never taken back |
| Pipeline.FinishedAndConsumedIsDelivered | simulator/logitrack_sim/main.py:288-300 | Once some run has published all its steps and the log is consumed, all steps are applied, the delivery is DELIVERED and its linked order FULFILLED |
| Pipeline.RunStartsWhereAppliedEnds | simulator/logitrack_sim/main.py:273-288 | In every run, a simulation that resumes after m applied steps starts with exactly the steps after m, and not at all once all are applied; one that does not resume starts with the whole plan |
| Pipeline.RunKeepsInv | simulator/logitrack_sim/main.py:279-301 | Every reachable state: log entries were admissible when appended, every run has published all steps before its pending ones, consumed entries are exactly the first occurrences |
| Pipeline.ConsumeOwn | api/src/main/java/io/logitrack/delivery/Delivery.java:46-55 | A step already seen is a duplicate without effect; the next step is always applied, never stale or rejected |
| Pipeline.CleanScheduleApplies | simulator/logitrack_sim/main.py:288-300 | The crash-free schedule publishes and applies exactly m steps |
| Pipeline.Simulate | simulator/logitrack_sim/main.py:279-301 | simulate ends just as the corresponding run of the transition system: all pending steps appended to the log, or, when a publication raises, the confirmed ones, with the refused envelope possibly still to arrive and the run over; nothing is sent for a delivered delivery |
| Pipeline.PublishAll | simulator/logitrack_sim/main.py:288-301 | The publishing loop, for every sequence of confirmed and refused publications, sends the confirmed prefix and stops at the first refusal as that run does |
| Steps.RoundIsNearest | simulator/logitrack_sim/main.py:290 | round(index / steps, 4) is a nearest ten-thousandth, whichever way floating-point ties fall |
| Steps.RoundIncreases | simulator/logitrack_sim/main.py:182-183 | Distinct steps have distinct progress, in step order, for every admitted STEPS (2 to 1000) |
| Steps.ProgressEndpoints | simulator/logitrack_sim/main.py:290-291 | Progress is 1 for the last step only, and positive from step 1 on |
| Steps.PendingWithin | simulator/logitrack_sim/main.py:182-183 | Whatever progress is read, pending steps are steps of the plan |
| Steps.ResumeContinues | simulator/logitrack_sim/main.py:182-183 | Resuming from the progress of step m publishes exactly steps m+1..STEPS |
| TelemetryConsumption.RedeliveryChangesNothing | api/src/main/java/io/logitrack/event/TelemetryConsumer.java:28-47 | Consuming an event again, at any time, changes nothing; a rejection changes nothing; each processed event leaves one telemetry point |
| TelemetryConsumption.VerdictIsExact | api/src/main/java/io/logitrack/event/TelemetryConsumer.java:28-47 | A new event is taken exactly when its delivery is stored, it names the vehicle, is stamped at most the skew ahead, is in range and is late or does not move progress back; late ones leave a point only, the others move the delivery to the reading and on arrival fulfil its order |
| TelemetryConsumption.EveryPointIsEvidenced | api/src/main/java/io/logitrack/event/TelemetryConsumer.java:28-47 | Whatever records are consumed, in any order and with any repeats, each telemetry point added came from a record that kept the contract, named the vehicle of its delivery as stored then, was stamped within the tolerated skew and was in range |
| TelemetryConsumption.TelemetryConsumer.ConsumeEvent | api/src/main/java/io/logitrack/event/TelemetryConsumer.java:28-47 | The consumer transaction on its tables, rollback included, is the specified step |
| Deliveries.TelemetryMovesForward | api/src/main/java/io/logitrack/delivery/Delivery.java:46-55 | Telemetry keeps progress in [0,1] and 1 exactly when DELIVERED, moves progress and time only forward, and never touches a delivered row |
| Deliveries.FoldMovesForward | api/src/main/java/io/logitrack/delivery/Delivery.java:46-55 | The same for any stream of readings |
| Deliveries.AppliedReadingIsStaleLater | api/src/main/java/io/logitrack/delivery/Delivery.java:52 | A reading applied once is stale at every later point |
| Deliveries.Delivery.Create | api/src/main/java/io/logitrack/delivery/Delivery.java:35-42 | A new delivery stands at its origin, CREATED, with progress 0 and no telemetry time |
| Deliveries.Delivery.Apply | api/src/main/java/io/logitrack/delivery/Delivery.java:46-55 | The entity method, field by field, makes the specified transition with the specified verdict |
| OffsetTracker.CommitIsContiguous | simulator/logitrack_sim/main.py:161-171 | A commit is one past the longest completed prefix: every registered offset below it is done, every undone one is at or above it |
| OffsetTracker.CommitsExactlyAtTheFront | simulator/logitrack_sim/main.py:161-171 | Completing an offset commits exactly when everything registered before it is done |
| OffsetTracker.CommitsIncrease | simulator/logitrack_sim/main.py:161-171 | Along any later registrations and completions, commits of a partition strictly increase |
| OffsetTracker.RegisterRefines | simulator/logitrack_sim/main.py:151-159 | Registration is refused exactly out of order, and otherwise extends the history by one offset |
| OffsetTracker.CompleteRefines | simulator/logitrack_sim/main.py:161-171 | Completion is refused exactly for offsets not pending; otherwise the dictionaries and the returned position are those of the history |
| OffsetTracker.SweepStopsAtPrefix | simulator/logitrack_sim/main.py:167-170 | The popping loop stops exactly at the end of the completed prefix |
| OffsetTracker.BookkeepingDrains | simulator/logitrack_sim/main.py:161-171 | Completed offsets are pending ones, and everything empties once all registered offsets are done |
| OffsetTracker.ContiguousOffsetTracker.Register | simulator/logitrack_sim/main.py:151-159 | The method on its three dictionaries makes the specified change to one key and none to others |
| OffsetTracker.ContiguousOffsetTracker.Complete | simulator/logitrack_sim/main.py:161-171 | The method, loop included, makes the specified change and returns the specified position |
| SimulatorLoop.CommittedMessagesAreHandled | simulator/logitrack_sim/main.py:340-375 | In every run with any completion order, failures, quarantines and crashes, each message below a committed position was fully simulated or confirmed on the dead letter topic |
| SimulatorLoop.CommittedDecodableIsSimulated | simulator/logitrack_sim/main.py:340-367 | In every run, a message below a committed position that decodes was simulated to the end: only undecodable ones reach the dead letter topic |
| SimulatorLoop.UnhandledMessagesRemain | simulator/logitrack_sim/main.py:340-375 | A message not yet handled is in flight or will be polled again, now or after a restart |
| SimulatorLoop.FailureBlocksCommit | simulator/logitrack_sim/main.py:333-338 | While a failed simulation is reported or queued, its offset is not committed |
| SimulatorLoop.InFlightBounded | simulator/logitrack_sim/main.py:313-366 | At most 2 * WORKERS simulations run at once |
| SimulatorLoop.CommitsNeverMoveBack | simulator/logitrack_sim/main.py:322-325 | The committed position of a partition never decreases, across crashes |
| SimulatorLoop.IdlePartitionIsCommitted | simulator/logitrack_sim/main.py:322-338 | In every run, once a partition has no work in flight, everything polled from it is committed |
| SimulatorLoop.NextMessageGoesThrough | simulator/logitrack_sim/main.py:340-375 | From every reachable state with nothing in flight, an undisturbed pass takes the next message through: simulated or quarantined, and committed |
| SimulatorLoop.RunKeepsInv | simulator/logitrack_sim/main.py:304-375 | Every reachable state: registered offsets not completed are exactly the work in flight, and slots and running simulations add up |
| EndToEnd.MovesKeepInv | simulator/logitrack_sim/main.py:279-375 | Every reachable state of both: a simulation that returned normally has all its steps in the log |
| EndToEnd.CommittedAndConsumedIsDelivered | simulator/logitrack_sim/main.py:279-375 | Loop and pipeline together, in every run with failures, crashes, duplicates and redeliveries on either side: once the event of a delivery is below the committed position and the telemetry log is consumed, every step has been applied once in order, the delivery is DELIVERED and its order FULFILLED |
| Orders.OrderAndDeliveryCoupled | api/src/main/java/io/logitrack/order/OrderService.java:68-104 | In every reachable state an order is READY iff no delivery is linked, DISPATCHED iff linked and not DELIVERED, FULFILLED iff linked and DELIVERED; progress is 1 iff DELIVERED |
| Orders.OutboxMatchesStatuses | api/src/main/java/io/logitrack/order/OrderService.java:68-104 | The outbox holds exactly one order event per status reached and one per delivery |
| Orders.LinkedDeliveryServesOrder | api/src/main/java/io/logitrack/order/OrderService.java:86-93 | In every run the delivery linked to an order carries its number from its origin to its destination |
| Orders.CreateRetryIsIdempotent | api/src/main/java/io/logitrack/order/OrderService.java:30-42 | A creation repeated under its key, after anything, answers with the same order and changes nothing |
| Orders.CreatesDeliveryExactly | api/src/main/java/io/logitrack/delivery/DeliveryService.java:29-59 | Under a new key a delivery is created exactly for a request in order, at its origin with progress 0, linked as asked and announced |
| Orders.CreatesOrderExactly | api/src/main/java/io/logitrack/order/OrderService.java:30-42 | Under a new key an order is created exactly for a request in order with a new number, READY and announced |
| Orders.DispatchRetryIsIdempotent | api/src/main/java/io/logitrack/order/OrderService.java:69-95 | A dispatch repeated under its key, after anything, answers with the same delivery and changes nothing |
| Orders.DispatchesExactly | api/src/main/java/io/logitrack/order/OrderService.java:69-95 | Under a new key an order without a delivery is dispatched exactly when key and vehicle are in order and no delivery has the key: one delivery from its origin to its destination, linked and announced |
| Orders.LateDispatchKey | api/src/main/java/io/logitrack/order/OrderService.java:75-84 | A dispatched order takes a new key exactly when it has none, the vehicle is that of its delivery and it is not delivered |
| Orders.RunKeepsInv | api/src/main/java/io/logitrack/order/OrderService.java:68-104 | Coupling, announcements and key uniqueness hold in every reachable state |
| Orders.TelemetryKeepsInv | api/src/main/java/io/logitrack/order/OrderService.java:97-104 | Applying telemetry and fulfilling the order in one transaction keeps them coupled |
| Orders.OrderService.Create | api/src/main/java/io/logitrack/order/OrderService.java:30-42 | The command on its tables is the specified transition |
| Orders.OrderService.CreateForOrder | api/src/main/java/io/logitrack/delivery/DeliveryService.java:29-59 | Key lookup, order link and outbox row of delivery creation are the specified transition |
| Orders.OrderService.DispatchOrder | api/src/main/java/io/logitrack/order/OrderService.java:69-95 | The command, key binding included, is the specified transition |
| Orders.OrderService.Fulfill | api/src/main/java/io/logitrack/order/CustomerOrder.java:59-64 | Fulfilment succeeds exactly for a dispatched or already fulfilled order, and is announced once |
| RoutePlanner.OneRunningTaskPerKey | analytics/app/routing.py:85-96 | In every interleaving of callers, cancellations, failures, finalizers and time, at most one planning task runs per key |
| RoutePlanner.ResultsBelongToTheirKey | analytics/app/routing.py:105-128 | Each returned and each cached route came from a task created for that very key |
| RoutePlanner.NoEntryLeaks | analytics/app/routing.py:98-123 | Each in-flight entry has a waiter or finalizer; once its task has ended the first to come back removes it; with nobody left the table is empty |
| RoutePlanner.CacheIsMostRecentlyUsed | analytics/app/routing.py:87-91 | The cached keys are the 1024 most recently touched distinct keys in touch order; a key is cached iff fewer than 1024 other keys were touched since; with TTL 0 nothing is cached |
| RoutePlanner.HitsAreFresh | analytics/app/routing.py:88-91 | A hit serves a route that an earlier write stored for that key less than a TTL ago, planned by a task for that key |
| RoutePlanner.ArrivalIsServed | analytics/app/routing.py:86-96 | In every run a caller arriving for a key with an unexpired cached result gets exactly that, at once and without a task, whatever else is in flight; otherwise joins the task in flight for the key; otherwise exactly one task is created |
| RoutePlanner.ComingBackSettles | analytics/app/routing.py:97-128 | A caller whose task returned gets its route and caches it; one who gives up a running task schedules a finalizer unless the key is planned anew; a finalizer caches the result of a task still in the table; a finished task leaves the table |
| RoutePlanner.RunKeepsInv | analytics/app/routing.py:85-128 | The invariant behind these results holds in every reachable state |
| RouteCache.WriteKeepsWindow | analytics/app/routing.py:108-112 | A write with eviction keeps the cache the window of most recently touched keys |
| RouteCache.HitKeepsWindow | analytics/app/routing.py:89-91 | So does a fresh hit |
| RouteCache.InWindowIff | analytics/app/routing.py:111-112 | A key is in the window exactly when it was touched and fewer than n others were touched since |
| RoutePlanner.RoutePlanner.EnterPlan | analytics/app/routing.py:87-95 | The first lock section on the cache and the in-flight table |
| RoutePlanner.RoutePlanner.StoreResult | analytics/app/routing.py:108-112 | Store, move to the end and the eviction loop |
| RoutePlanner.RoutePlanner.SettlePlan | analytics/app/routing.py:105-112 | The last lock section of plan |
| RoutePlanner.RoutePlanner.GiveUpPlan | analytics/app/routing.py:98-104 | The exception handler: pop a finished task, or ask for a finalizer |
| RoutePlanner.RoutePlanner.FinalizeAbandoned | analytics/app/routing.py:115-128 | The finalizer acts only while its task is still the entry |
| RouteSampling.SampleRoute | simulator/logitrack_sim/route.py:21-43 | The one-sweep samples equal an independent search from the start for each step; there are `steps` of them; degenerate routes give the end point |
| RouteSampling.Sweep | simulator/logitrack_sim/route.py:31-43 | The sweep with its carried pointer samples each target arc length |
| RouteSampling.LocateBrackets | simulator/logitrack_sim/route.py:35-37 | The segment found contains the target arc length |
| RouteSampling.SampleOnRoute | simulator/logitrack_sim/route.py:38-42 | The ratio found for a target lies in (0,1] and makes the length travelled exactly the target |
| RouteSampling.SamplesAreEquallySpaced | simulator/logitrack_sim/route.py:31-43 | In coordinates: sample k divides some segment in the ratio in (0,1] at which the length travelled to it is k / steps of the whole |
| RouteSampling.InterpolatedEvenly | simulator/logitrack_sim/route.py:12-18 | In coordinates: the straight-line fallback has the asked number of points, the i-th at i / steps of the way |
| RouteSampling.LastSampleIsTheEnd | simulator/logitrack_sim/route.py:33-43 | The last sample is the route's end, zero-length segments included |
| RouteSampling.TwoPointRouteIsInterpolation | simulator/logitrack_sim/route.py:12-18 | Sampling a two-point route is straight-line interpolation |
| RouteSampling.SamplesStayInRange | simulator/logitrack_sim/route.py:40-42 | Samples of a route within coordinate bounds stay within them |
| RouteDeviation.DistanceMeters | api/src/main/java/io/logitrack/alert/RouteDeviationCalculator.java:8-27 | The result is at most the planar distance to every point of every segment and attained by one; infinite exactly when position or geometry is invalid |
| RouteDeviation.MinimumInDegrees | api/src/main/java/io/logitrack/alert/RouteDeviationCalculator.java:17-25 | In degrees: the minimum is at most the distance, east by the metres per degree of longitude and north by those of latitude, to any point of any segment, and is that distance for one |
| RouteDeviation.ClampedVertexIsLeast | api/src/main/java/io/logitrack/alert/RouteDeviationCalculator.java:23 | The clamped vertex minimises the quadratic distance over [0,1] |
| RouteDeviation.NearestIsLeast | api/src/main/java/io/logitrack/alert/RouteDeviationCalculator.java:22-23 | The clamped projection is the nearest point of its segment |
| RouteDeviation.MinimumExtends | api/src/main/java/io/logitrack/alert/RouteDeviationCalculator.java:15-25 | The running minimum over segments extends by one segment |
| DeadLetterRecovery.TerminalIffAudited | api/src/main/java/io/logitrack/replay/ReplayService.java:50-108 | In every run a catalogued event is terminal iff it has an audit, then exactly one, with its action, actor and reason; a replayed event has a send the broker acknowledged, by that actor, in a transaction that was not rolled back |
| DeadLetterRecovery.ResolvesExactly | api/src/main/java/io/logitrack/replay/ReplayService.java:50-108 | Under a new key or none, an event is resolved and audited exactly when the request is in order, the event is pending and the send of a replay is acknowledged; otherwise rows and audits stay and only an event already as asked is answered |
| DeadLetterRecovery.ReplayedWasAcknowledged | api/src/main/java/io/logitrack/replay/ReplayService.java:66-76 | In every run a replayed event was marked by exactly one acknowledged send, made by the operator it names while it was pending |
| DeadLetterRecovery.TerminalIsFinal | api/src/main/java/io/logitrack/replay/DeadLetterEvent.java:46-54 | Once terminal, an event never changes, is never audited and never sent again, in any continuation |
| DeadLetterRecovery.KeyReuseChangesNothing | api/src/main/java/io/logitrack/replay/ReplayService.java:53-61 | After a keyed success, the same request answers with the same event in every continuation; any other request under the key is refused; neither changes anything |
| DeadLetterRecovery.UnkeyedRetryChangesNothing | api/src/main/java/io/logitrack/replay/ReplayService.java:62-65 | Without a key, repeating a success answers with the same event and changes nothing |
| DeadLetterRecovery.KeyOnOneAudit | api/src/main/java/io/logitrack/replay/ReplayService.java:76 | In every run each request key is on at most one audit |
| DeadLetterRecovery.RunKeepsInv | api/src/main/java/io/logitrack/replay/ReplayService.java:50-108 | Every reachable state: pending events are unaudited, terminal ones explained by their one audit, keys unique |
| DeadLetterRecovery.AttemptShape | api/src/main/java/io/logitrack/replay/ReplayService.java:50-79 | An attempt changes nothing but sends, or resolves and audits one pending event, however its transaction ends |
| DeadLetterRecovery.DeadLetterEvent.MarkReplayed | api/src/main/java/io/logitrack/replay/DeadLetterEvent.java:46-49 | Only a pending event is marked replayed |
| DeadLetterRecovery.DeadLetterEvent.DiscardFor | api/src/main/java/io/logitrack/replay/DeadLetterEvent.java:51-54 | Only a pending event is discarded |
| DeadLetterRecovery.ReplayService.ReplayEvent | api/src/main/java/io/logitrack/replay/ReplayService.java:50-79 | replay: key check, send, mark and audit in sequence make the specified transition |
| DeadLetterRecovery.ReplayService.DiscardEvent | api/src/main/java/io/logitrack/replay/ReplayService.java:87-108 | discard makes the specified transition |
| DeadLetterRecovery.ReplayService.Transact | api/src/main/java/io/logitrack/replay/ReplayService.java:49-50 | The REQUIRES_NEW transaction around a call: confirmed, rolled back, or committed without an answer; sends are never undone |
| RecoveryPlans.ExecutedMeansAllResolved | api/src/main/java/io/logitrack/replay/ReplayPlanService.java:73-82 | In every run counts sum to the plan size, succeeded events are resolved by the plan's actor as the plan asks, and EXECUTED means all are |
| RecoveryPlans.StartsExactly | api/src/main/java/io/logitrack/replay/ReplayPlanService.java:57-72 | An execution starts exactly when the plan is prepared and idle, its own actor approves, the key if any is fresh and it has not expired; startable but too late, the plan becomes EXPIRED and nothing starts |
| RecoveryPlans.ExecutionsAreApproved | api/src/main/java/io/logitrack/replay/ReplayPlanService.java:57-72 | In every run each execution under way was begun, approved, by the actor of its plan, on a prepared plan, before it expired |
| RecoveryPlans.CommittedEventsAreNeverResent | api/src/main/java/io/logitrack/replay/ReplayPlanService.java:74-80 | Once an event is committed, no continuation - lost plans executed again, overlapping plans, other operators - sends, changes or audits it again |
| RecoveryPlans.ResumeCountsCommitted | api/src/main/java/io/logitrack/replay/ReplayPlanService.java:75 | Executing again counts an event already resolved by the actor as a success without touching it |
| RecoveryPlans.CrashResumeEqualsOneExecution | api/src/main/java/io/logitrack/replay/ReplayPlanService.java:73-81 | A plan lost after any number of its events, all of which went well, and executed again leaves the events, audits, sends and counts of one uninterrupted execution |
| RecoveryPlans.ResumeAfterAnyExecution | api/src/main/java/io/logitrack/replay/ReplayPlanService.java:73-81 | Whatever became of a first execution of any part of a plan - failed sends, rolled-back or unanswered commits - a second one that goes well leaves the event rows and counts of a single one that goes well |
| RecoveryPlans.StepsRefineBatch | api/src/main/java/io/logitrack/replay/ReplayPlanService.java:73-80 | Undisturbed, the interleaved steps of an execution do exactly what the loop does |
| RecoveryPlans.WholeExecutionResolvesAll | api/src/main/java/io/logitrack/replay/ReplayPlanService.java:72-82 | Undisturbed, a startable plan resolves each of its pending events and no other, counts as succeeded just those now resolved as it asks, and is EXECUTED exactly when that is all of them |
| RecoveryPlans.PlanOutcomeIsFinal | api/src/main/java/io/logitrack/replay/ReplayPlan.java:33-38 | An executed, partial or expired plan keeps its outcome in every continuation; at most a missing execution key is added |
| RecoveryPlans.ExecutionKeyReuse | api/src/main/java/io/logitrack/replay/ReplayPlanService.java:60-67 | A used execution key changes nothing in any continuation and answers only the plan's own actor for that plan |
| RecoveryPlans.BeginAnswers | api/src/main/java/io/logitrack/replay/ReplayPlanService.java:57-72 | execute answers with its plan exactly to the actor of the plan, approved, without a key, with the key of that plan, or with a fresh key for a plan without one |
| RecoveryPlans.PrepareRetry | api/src/main/java/io/logitrack/replay/ReplayPlanService.java:38-48 | Preparing again under a request key changes nothing and answers only the same request |
| RecoveryPlans.PreparesExactly | api/src/main/java/io/logitrack/replay/ReplayPlanService.java:33-48 | Under a new key a plan is prepared exactly for a request in order whose distinct events are at most the maximum and all pending; it expires ten minutes later |
| RecoveryPlans.RunKeepsInv | api/src/main/java/io/logitrack/replay/DiscardPlanService.java:28-77 | Replay and discard plans alike: counts, key uniqueness and event conservation hold in every reachable state |
| RecoveryPlans.DistinctKeepsMembers | api/src/main/java/io/logitrack/replay/ReplayPlanService.java:36 | Deduplicating the requested ids keeps their members, each once |
| RecoveryPlans.PlanRow.Expire | api/src/main/java/io/logitrack/replay/DiscardPlan.java:33-33 | Only a prepared plan expires |
| RecoveryPlans.PlanRow.BindExecutionRequest | api/src/main/java/io/logitrack/replay/ReplayPlan.java:34 | An execution key is bound once |
| RecoveryPlans.PlanRow.Complete | api/src/main/java/io/logitrack/replay/ReplayPlan.java:35-38 | Completion records the counts and is EXECUTED iff nothing failed |
| RecoveryPlans.PlanService.BeginPlan | api/src/main/java/io/logitrack/replay/ReplayPlanService.java:57-72 | Approval, execution key, actor, status and expiry checks, in order |
| RecoveryPlans.PlanService.ExecuteAll | api/src/main/java/io/logitrack/replay/ReplayPlanService.java:73-80 | The loop over the events counts successes and failures as specified |
| RecoveryPlans.PlanService.Execute | api/src/main/java/io/logitrack/replay/ReplayPlanService.java:57-83 | execute, undisturbed, leaves the events of the batch and the completed plan |
| DeadLetterCatalog.TextRoundTrip | simulator/logitrack_sim/main.py:252-253 | Decimal text is recovered exactly when the value fits the header type, else it decodes to nothing |
| DeadLetterCatalog.BinaryRoundTrip | api/src/main/java/io/logitrack/replay/DeadLetterCatalog.java:51-71 | Big-endian binary is recovered exactly when its bytes are not all ASCII digits, hence for partitions below 0x30303030 and offsets below 0x3030303030303030 |
| DeadLetterCatalog.FirstAmbiguousValue | api/src/main/java/io/logitrack/replay/DeadLetterCatalog.java:55-57 | The bound is sharp: the first ambiguous value decodes to 0 |
| DeadLetterCatalog.UndecodableHeaders | api/src/main/java/io/logitrack/replay/DeadLetterCatalog.java:51-71 | A header decodes to nothing exactly when it is missing, its digits exceed the type, or it is not digits and has another length or a negative value |
| DeadLetterCatalog.NoTwoRowsForOneMessage | api/src/main/java/io/logitrack/replay/DeadLetterCatalog.java:25-44 | Under any redelivery no two rows share a DLQ position or a known source position |
| DeadLetterCatalog.RedeliveryChangesNothing | api/src/main/java/io/logitrack/replay/DeadLetterCatalog.java:26-37 | Every record consumed is represented by a row, and delivering it again changes nothing |
| DeadLetterCatalog.CapturesExactly | api/src/main/java/io/logitrack/replay/DeadLetterCatalog.java:25-44 | A record is catalogued exactly when no row has its dead letter position nor its known source position; the row holds those, and the telemetry topic where the header has none |
| DeadLetterCatalog.QuarantinedTwiceIsCataloguedOnce | simulator/logitrack_sim/main.py:244-264 | A message quarantined twice, whatever comes between, is catalogued once |
| DeadLetterCatalog.QuarantineKeepsPosition | simulator/logitrack_sim/main.py:250-255 | The catalog recovers the exact source position from the simulator's headers |
| DeadLetterCatalog.Catalogue.Capture | api/src/main/java/io/logitrack/replay/DeadLetterCatalog.java:25-44 | capture inserts exactly the specified row, or none |
| Outbox.Lifecycle | api/src/main/java/io/logitrack/outbox/OutboxEvent.java:35-37 | In every run a pending row failed fewer than 20 times since creation or revival, FAILED means exactly 20 times, the 20th at least 3071 seconds after the first |
| Outbox.AuditsAreRevivals | api/src/main/java/io/logitrack/outbox/OutboxRecoveryService.java:18-29 | An event's audits are exactly its FAILED to PENDING transitions |
| Outbox.KeyReuseChangesNothing | api/src/main/java/io/logitrack/outbox/OutboxRecoveryService.java:19-25 | A retry key revives at most once and afterwards answers only the same request |
| Outbox.PublishedIsFinal | api/src/main/java/io/logitrack/outbox/OutboxPublishAttempt.java:24-45 | A published row never changes again |
| Outbox.RowChangesExactly | api/src/main/java/io/logitrack/outbox/OutboxPublishAttempt.java:24-45 | A row is published by an acknowledged committed send alone; a refused one counts a failure and sets the next attempt at the exact backoff, or fails the row at the 20th; only a retry in order under a new key revives it |
| Outbox.PublishedWasSent | api/src/main/java/io/logitrack/outbox/OutboxPublishAttempt.java:24-45 | In every run a published row was due when a send of it was acknowledged and committed |
| Outbox.DelayValue | api/src/main/java/io/logitrack/outbox/OutboxEvent.java:36 | Delays double from 1 to 256 seconds; the 300 second cap is never reached |
| Outbox.RunTracks | api/src/main/java/io/logitrack/outbox/OutboxPublishAttempt.java:24-45 | Rows agree with what an observer of their failures saw, in every run |
| Outbox.OutboxEvent.MarkFailed | api/src/main/java/io/logitrack/outbox/OutboxEvent.java:36 | failed makes the specified transition |
| Outbox.OutboxEvent.MarkPublished | api/src/main/java/io/logitrack/outbox/OutboxEvent.java:35 | published makes the specified transition |
| Outbox.OutboxEvent.Revive | api/src/main/java/io/logitrack/outbox/OutboxEvent.java:37 | retry revives a failed row only |
| AlertPolicies.TableIsReplay | api/src/main/java/io/logitrack/alert/AlertPolicyService.java:20-106 | For every vehicle after every run, thresholds, active flag, actor and time equal the replay of the audit trail, where a reset keeps thresholds and a restore takes those of the audit it names |
| AlertPolicies.ThresholdsAreOrdered | api/src/main/java/io/logitrack/alert/AlertPolicy.java:39-46 | Table and snapshots always satisfy 0 <= close < open <= critical |
| AlertPolicies.OneRestorePerSnapshotAndActor | api/src/main/java/io/logitrack/alert/AlertPolicyService.java:91-99 | An actor restores a snapshot at most once, and a key is on at most one audit |
| AlertPolicies.ResolveNeverFails | api/src/main/java/io/logitrack/alert/AlertPolicyService.java:13-15 | resolve always answers: the vehicle's active policy, else the default, which no run deactivates |
| AlertPolicies.UsedKeyChangesNothing | api/src/main/java/io/logitrack/alert/AlertPolicyService.java:25-32 | In every continuation any operation under a used key changes nothing |
| AlertPolicies.SuccessUsesKey | api/src/main/java/io/logitrack/alert/AlertPolicyService.java:38 | A success under a key leaves the key on an audit |
| AlertPolicies.UpsertsExactly | api/src/main/java/io/logitrack/alert/AlertPolicyService.java:21-39 | Under a new key an upsert is saved with its snapshot exactly when its texts are in order and 0 <= close < open <= critical |
| AlertPolicies.ResetsExactly | api/src/main/java/io/logitrack/alert/AlertPolicyService.java:45-70 | Under a new key or none, a reset deactivates any active policy but the default and keeps its thresholds; an inactive one answers the operator who reset it, without a key |
| AlertPolicies.RestoresExactly | api/src/main/java/io/logitrack/alert/AlertPolicyService.java:76-106 | Under a new key or none, the first restore of an audit by an operator always succeeds and brings its thresholds back, active |
| AlertPolicies.ImmediateRetry | api/src/main/java/io/logitrack/alert/AlertPolicyService.java:25-32 | Repeating a keyed operation at once answers with the policy it saved |
| AlertPolicies.KeyedRepeat | api/src/main/java/io/logitrack/alert/AlertPolicyService.java:25-32 | A keyed success repeated after any continuation changes nothing; it answers with the policy exactly when that is still as the audited operation left it, and is refused otherwise |
| AlertPolicies.KeyForFinishedReset | api/src/main/java/io/logitrack/alert/AlertPolicyService.java:60-64 | Adding a key to a finished reset works exactly when it is the actor's last reset, still without a key, and audit rows may be updated |
| AlertPolicies.KeyForFinishedRestore | api/src/main/java/io/logitrack/alert/AlertPolicyService.java:91-98 | The same for a finished restore whose policy is still as restored |
| AlertPolicies.LateResetKeyNeedsUpdates | api/src/main/resources/db/migration/V29__immutable_audit_records.sql:15-17 | A reachable reset whose late key is bound exactly without the trigger |
| AlertPolicies.LateRestoreKeyNeedsUpdates | api/src/main/resources/db/migration/V29__immutable_audit_records.sql:15-17 | A reachable restore whose late key is bound exactly without the trigger |
| AlertPolicies.FrozenTrailOnlyGrows | api/src/main/resources/db/migration/V29__immutable_audit_records.sql:15-17 | Under the immutability trigger the trail is append-only |
| AlertPolicies.RunKeepsInv | api/src/main/java/io/logitrack/alert/AlertPolicyService.java:20-106 | The invariant behind these results holds in every reachable state |
| AlertPolicies.AlertPolicy.Update | api/src/main/java/io/logitrack/alert/AlertPolicy.java:31-37 | update validates first, then sets every field |
| AlertPolicies.AlertPolicy.Deactivate | api/src/main/java/io/logitrack/alert/AlertPolicy.java:38-39 | deactivate refuses only the global default |
| AlertPolicies.AlertPolicyService.UpsertPolicy | api/src/main/java/io/logitrack/alert/AlertPolicyService.java:21-39 | upsert makes the specified transition |
| AlertPolicies.AlertPolicyService.ResetPolicy | api/src/main/java/io/logitrack/alert/AlertPolicyService.java:45-70 | reset makes the specified transition, late key binding included |
| AlertPolicies.AlertPolicyService.RestorePolicy | api/src/main/java/io/logitrack/alert/AlertPolicyService.java:76-106 | restore makes the specified transition |
| AlertPolicies.AlertPolicyService.BindRequestKey | api/src/main/java/io/logitrack/alert/AlertPolicyAudit.java:36 | A key is bound once, and never on a frozen trail |
| AlertPolicies.AlertPolicyService.SaveWithAudit | api/src/main/java/io/logitrack/alert/AlertPolicyAudit.java:29-35 | The audit is a snapshot of the policy just saved |
| Alerts.OneActivePerDeliveryAndKind | api/src/main/java/io/logitrack/alert/AlertService.java:61-67 | There are never two ACTIVE alerts of one delivery and type |
| Alerts.TraceOfEveryAlert | api/src/main/java/io/logitrack/alert/AlertService.java:21-67 | Each alert's events are OPENED, then at most one ESCALATED and one ACKNOWLEDGED, then at most one RESOLVED, and the row shows just what they say |
| Alerts.ReopeningNeedsCloseThenOpen | api/src/main/java/io/logitrack/alert/AlertService.java:25-27 | Under one policy, between two openings of a deviation alert the value was at or below close and then at or above open |
| Alerts.EvaluationDecides | api/src/main/java/io/logitrack/alert/AlertService.java:21-35 | An evaluation opens, keeps, raises or resolves the deviation alert and then the delay alert exactly by the thresholds, touches no other alert, and announces just each opening, rise and end |
| Alerts.KeyReuseChangesNothing | api/src/main/java/io/logitrack/alert/AlertService.java:44-57 | An acknowledgement key, in every continuation, changes nothing and answers only the same request |
| Alerts.AcknowledgementIsForGood | api/src/main/java/io/logitrack/alert/DeliveryAlert.java:37-50 | A keyed acknowledgement is never overwritten |
| Alerts.AcknowledgesExactly | api/src/main/java/io/logitrack/alert/AlertService.java:41-60 | Under a new key or none, only an active alert nobody acknowledged is acknowledged; a key comes late only for the same operator |
| Alerts.RunKeepsInv | api/src/main/java/io/logitrack/alert/AlertService.java:36-67 | Rows and events agree in every reachable state |
| Alerts.DeliveryAlert.Observe | api/src/main/java/io/logitrack/alert/DeliveryAlert.java:30-32 | Severity only rises, and the rise is reported |
| Alerts.DeliveryAlert.Resolve | api/src/main/java/io/logitrack/alert/DeliveryAlert.java:33 | resolve records the closing value |
| Alerts.DeliveryAlert.AcknowledgeBy | api/src/main/java/io/logitrack/alert/DeliveryAlert.java:37-43 | Only active alerts are acknowledged, once |
| Alerts.DeliveryAlert.BindAcknowledgementKey | api/src/main/java/io/logitrack/alert/DeliveryAlert.java:44-50 | A late key is bound once, by the acknowledging operator |
| Alerts.AlertService.ReconcileAlert | api/src/main/java/io/logitrack/alert/AlertService.java:61-67 | Open, resolve or observe, with the event of each change |
| Alerts.AlertService.EvaluateDelivery | api/src/main/java/io/logitrack/alert/AlertService.java:21-35 | Deviation then delay are reconciled against the policy |
| Alerts.AlertService.AcknowledgeDelivery | api/src/main/java/io/logitrack/alert/AlertService.java:41-60 | acknowledge makes the specified transition |
| RateLimiter.OneCounterPerSubjectAndWindow | api/src/main/java/io/logitrack/config/ApiRateLimitFilter.java:60-67 | In every run a charge goes to its subject's own counter or to overflow, and all charges of a subject in one window go to the same one |
| RateLimiter.OverflowsExactly | api/src/main/java/io/logitrack/config/ApiRateLimitFilter.java:60-67 | A request goes to overflow exactly when its subject is not in the table and maxSubjects windows are live; live windows are kept |
| RateLimiter.OverflowOnlyWhenFull | api/src/main/java/io/logitrack/config/ApiRateLimitFilter.java:60-67 | In every run, when a request is charged to overflow, maxSubjects counters were charged in its window before |
| RateLimiter.AdmitsAtMostLimit | api/src/main/java/io/logitrack/config/ApiRateLimitFilter.java:41-46 | A counter admits at most `limit` requests of a window exactly when fewer than 2^31 are charged to it |
| RateLimiter.WrappedCounterAdmitsTooMany | api/src/main/java/io/logitrack/config/ApiRateLimitFilter.java:41-46 | For every configuration, a run of 2^31 requests of one subject in one window exceeds the limit |
| RateLimiter.WindowAdmitsBoundedTotal | api/src/main/java/io/logitrack/config/ApiRateLimitFilter.java:41-57 | In every run at most maxSubjects + 1 counters are charged in a window, what they admit is all that is admitted, and only a counter that wrapped lets the total exceed limit * (maxSubjects + 1) |
| RateLimiter.SpanAdmitsTwiceLimit | api/src/main/java/io/logitrack/config/ApiRateLimitFilter.java:69 | In every run a span of one window length admits at most 2 * limit per counter, unless the counter wraps in one of the two windows it meets |
| RateLimiter.TableIsBounded | api/src/main/java/io/logitrack/config/ApiRateLimitFilter.java:63-66 | The table holds at most maxSubjects + 1 windows |
| RateLimiter.RunKeepsInv | api/src/main/java/io/logitrack/config/ApiRateLimitFilter.java:37-67 | Windows count exactly what was charged to them, in every run with a non-decreasing clock |
| RateLimiter.EndsInOrder | api/src/main/java/io/logitrack/config/ApiRateLimitFilter.java:69 | Window ends are a window apart and in time order |
| RateLimiter.ApiRateLimitFilter.SubjectKey | api/src/main/java/io/logitrack/config/ApiRateLimitFilter.java:60-67 | Key choice and purge on the table |
| RateLimiter.ApiRateLimitFilter.DoFilter | api/src/main/java/io/logitrack/config/ApiRateLimitFilter.java:37-58 | Charge, verdict and Retry-After as specified |
| CutoverLedger.RootsFollowOrder | scripts/production-apply-guard.py:39-64 | In every run, overlapping scripts included, the applied roots are a prefix of the fixed order, only the last may lack a receipt, and each is the plan its manifest approved |
| CutoverLedger.StartsExactly | scripts/production-apply-guard.py:39-64 | On every reachable ledger each of the five scripts goes ahead exactly under its conditions, read entry by entry: unfenced and fully receipted for apply, an unreceipted last root for verification, one manifest and an approved trigger for rollback, the very fence and the deadline for its completion, seven recorded receipts for completion |
| CutoverLedger.CompletionNeedsSevenVerifiedRoots | scripts/production-cutover-complete.py:259-288 | Every completion names the receipts of all seven roots, in order, of one manifest |
| CutoverLedger.CompletionNamesRecordedReceipts | scripts/production-cutover-complete.py:259-282 | In every run the receipts a completion names are those an unfenced ledger of that run carried, root by root, each taken after its root was applied |
| CutoverLedger.FenceIsApproved | scripts/production-cutover-rollback.py:89-123 | In every run a fence names an approved trigger of the one manifest of all applied roots, and lists those roots |
| CutoverLedger.CutoverSucceeds | scripts/production-cutover-complete.py:259-288 | Under any manifest with a plan for each root, applying and verifying the roots in order succeeds and the completion then names the seven receipts |
| CutoverLedger.FenceHoldsIffNoneHarmful | scripts/production-cutover-rollback.py:89-123 | In every continuation the declared fence stands unchanged but for its first completion, with frozen roots and no completion, exactly when no script in flight would undo it: no forward script, none that read other roots, no other declaration and no recovery other than the one recorded |
| CutoverLedger.OverlapLosesFence | scripts/production-apply-guard.py:132-160 | A concrete run in which an apply waiting for Terraform erases a fence declared meanwhile |
| CutoverLedger.SerialFence | scripts/production-cutover-rollback.py:89-123 | One script at a time, every later script leaves the declared receipt, the roots and the completions as they are, and a completed fence entirely |
| CutoverLedger.RecoveryMeetsDeadline | scripts/production-cutover-rollback-complete.py:149-181 | In every run, overlapping scripts included, each rollback completion falls within the 1 to 30 minute deadline of the manifest its fence was declared under |
| CutoverLedger.SerialRecovery | scripts/production-cutover-rollback-complete.py:149-181 | One script at a time, a rollback completes at most once, and its fence records when |
| CutoverLedger.RecoveryIsFinalIffNoneReopens | scripts/production-cutover-rollback-complete.py:149-181 | A completed rollback is never completed again, in any continuation, exactly when no script in flight can reopen it: no recovery, no declaration within its deadline, no apply or verification whose ledger can still be rolled back |
| CutoverLedger.OverlapRecoversTwice | scripts/production-cutover-rollback.py:89-123 | A concrete run in which two declarations made at the same time lead to two rollback completions |
| CutoverLedger.ValidateLedger | scripts/production-apply-guard.py:39-64 | The loop accepts exactly an unfenced, fully verified proper prefix, and returns the next root |
| CutoverLedger.CollectReceipts | scripts/production-cutover-complete.py:259-282 | The loop accepts exactly a ledger evidenced root by root |
| CutoverLedger.LedgerFile.ApplyRoot | scripts/production-apply-guard.py:132-160 | The apply guard appends the next root, or leaves the ledger alone |
| CutoverLedger.LedgerFile.VerifyRoot | scripts/production-post-apply-verify.py:193-239 | Verification attaches a receipt to the last root only |
| CutoverLedger.LedgerFile.DeclareRollback | scripts/production-cutover-rollback.py:89-123 | The rollback script raises the fence over the ledger it read |
| CutoverLedger.LedgerFile.RecordRecovery | scripts/production-cutover-rollback-complete.py:149-181 | Rollback completion marks the fence, once and in time |

## Left out

- Web console, map, OIDC, CSP, controllers, metrics, streams to browsers, KPI SQL and PDF reports: no recovery logic.
- Warehouse stock and tasks: the entities carrying their guards are not part of this model.
- Retention cleanup and demo reseeding: results speak of rows that are not deleted.
- Kafka, HTTP, JSON parsing, AWS and Terraform: log appends, parsed values, and outside work that succeeds or fails.
- Header and actor texts are taken as already trimmed; blank means no character above the space, not the Unicode definition.
- Concurrent transactions inside one atomic step: lost updates between an unlocked read and its flush (such as an alert observed while being acknowledged), or an event that changes while a plan over it is being prepared, are not modelled; uniqueness the database enforces by index is kept by the sequential checks.
- `geodesic_fallback`, `parse_osrm`, ETA estimates, haversine and floating-point rounding: segment lengths are abstract non-negative reals that are zero only for equal points, the equirectangular scale and `hypot` are abstract, arithmetic is over reals; `round(i / steps, 4)` is kept exact with either choice on ties.
- Exception types: every refusal of a command is one value `Refused`; the order of checks is kept where it decides between an answer and a refusal.
- Alert evaluation inside the consumer's transaction: modelled apart, in `Alerts`; it cannot fail that transaction once a default policy exists (`AlertPolicies.ResolveNeverFails`).
- The pipeline follows one delivery; all other traffic on log and tables is arbitrary. `Pipeline.InitialIsPossible` gives a starting state.
- EndToEnd lets simulator runs outlive or predecease the process a crash would end with them, and any run of the delivery return to the loop; both only add behaviour.
- The simulator is the only member of its consumer group; its completions queue may be drained in any order, which covers the real one; finished simulations waiting in that queue hold no slot, in the model as in the code.
- Route planning while finalizers are cancelled or the event loop shuts down.
- Which due row `lockNextPending` returns is left open, since SKIP LOCKED lets any publisher take any due row; time passes during a send, other rows do not.
- Rate limiting of concurrent requests, times before 1970, overflow of `Math.addExact` and of the remaining-requests header.
- Hand edits of the ledger, several revisions, and the preflight's change-window and evidence checks; test-only script flags.
- RecoveryPlans.CrashResumeEqualsOneExecution: for a first part whose sends and commits went well, because an event whose commit failed is sent again; rows and counts after any first part are covered by `ResumeAfterAnyExecution`.
- CutoverLedger.SerialRecovery: at most one completion for scripts run one at a time; with overlap there can be two, as `RecoveryIsFinalIffNoneReopens` makes exact.

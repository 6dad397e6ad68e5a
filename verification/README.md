# Ride service: a verified model

A ride-hailing backend: riders request rides, drivers accept, start, complete and cancel them,
both rate each other. State lives in Postgres (rows saved by full-row replace), Redis (an
availability set, a geo-index, a surge cache, sets of dispatched offers) and four Kafka topics;
all handlers are coroutines on one event loop, and only `accept_ride` takes a lock.

The model has two layers over one `Worlds.World` (Postgres, Redis, Kafka, issued
tokens, the clock and what handlers send into streams).

**Steps (Machine and the modules named Machine..., AcceptSerial, Routes, Races).** A task is a handler
stopped before one of its awaits, with the row snapshots it holds; a step is one repository,
Redis or Kafka call. A run is any sequence of actions: admitting a call through the guards,
stepping a task, tearing one down, delivering or redelivering a message to the one consumer in
any order across topics, and letting time pass. Theorems hold for every run.

**Calls (Serial, Stores, Services and the modules named Serial...).** Each service call by
itself, as a function on worlds and as a method of a class that updates the stores; theorems
about rows taken together hold for every sequence of calls.

**Promises (Contracts).** What each call owes its caller, written out on the stored columns,
logs and streams without the functions the calls are made of: who is refused and with which code,
each column of each row changed, each message published, and that nothing else changes. Serial
calls (`SerialCalls`), the methods of `Services` and the steps of every route (`Routes`) are
proved to keep them.

The layers are tied at both ends. `Uninterrupted` shows that a handler whose steps are not
interleaved does exactly what the serial call does; `Services` shows the same of the imperative
methods; `SerialInMachine` shows that every serial run is a run of the step machine through the
guarded routes. Beside them stand the arithmetic (`Rounding`, `Surge`, `SurgeText`, `Fares`,
`RatingMath`), the surge cache (`Pricing`), offer dispatch (`Dispatch`) and the event streams
(`EventStream`, `Sse`).

`dafny verify dfyconfig.toml` checks the whole project.

What the proofs found:

- `go_online` does not look at the driver's active ride, and `cancel_ride` accepts a ride already
  cancelled and frees its driver again. These two calls, exactly, decide whether a driver can hold
  two rides (`SerialRides.ExclusivityExactlyWhen`, an if-and-only-if over whole runs, with a
  witness run for each in `SerialWitnesses`).
- The lock makes accepts serializable among themselves and, with the fact that no handler ever
  puts a row back to REQUESTED, limits a ride to one saved accept in every interleaving. It gives
  no more than that. The comment at `src/ride_service/services/ride.py:34-37` claims the guarantee
  of optimistic locking; the version column is written but never compared, and the model follows
  the code.
- Among the properties of serial runs, these fail under interleaving. Each has a run from the empty
  service in `Races` and, for all runs, an exact condition.
  - A stale cancel overwrites a completed ride. Its row stays for ever if and only if no task holds
    another row of it to save (`MachineSaves.CompletedFinalExactlyWhen`).
  - A rider gets two active rides, through two requests past their check or through an accept or a
    start that revives a ride cancelled since it was read. Riders keep to one if and only if
    request_ride's guard holds at the moment of every save of an active row
    (`MachineSaves.OneActivePerRiderExactlyWhen`).
  - A go_offline inside a go_online leaves the Redis set offering a driver whose row says no. Both
    records agree if and only if the last Redis half under way for a driver finds the stored row
    with the flag it writes, and none is torn down with something left to write
    (`MachineAvailability.AgreementExactlyWhen`).
  - A rating that read a user's row before the user registered as a driver, and saves it after,
    takes the role back: login and switch-mode then give no DRIVER token and registration answers
    409. The role lasts if and only if no such save is under way
    (`MachineUsers.UpgradeKeptExactlyWhen`).
  - A rating inside a driver registration is not counted. Counters are right if and only if every
    user row saved carries the stored counter, plus one in rate, and no rating is torn down before
    it is counted (`MachineUsers.CountersExactlyWhen`).
- Driver exclusivity under interleaving holds if and only if every save of a MATCHED or IN_PROGRESS
  ride finds its driver holding no other and marked unavailable, and no driver holding one is
  marked available (`MachineAvailability.ExclusivityUnderInterleaving`).
- Dividing at 28 digits before quantizing is harmless for up to 10^25 free drivers, and 10^25 + 1
  is the first count where it is not (`Surge.DoubleRoundingExactlyWhen`).
- Every row saved as REQUESTED, MATCHED, COMPLETED or CANCELLED is announced exactly once in every
  interleaving, unless the handler is torn down in between; the messages published, owed and lost
  add up to the saves (`MachineTopics.EveryChangeAnnouncedOnce`).
- A row saved late is always one transition from a row that was stored at some earlier moment
  (`MachineHistory.RowProvenance`), and the demand and supply behind a quote are counts of earlier
  moments (`MachineHistory.SurgeProvenance`).
- A ride-completed message that finds its ride cancelled over the completion closes no stream; the
  ride-cancelled message does. No stream is ever closed without a completion, a published
  cancellation or a driver going offline (`MachineStreams.ClosedForAReason`).
- From 800 ratings on, no single score moves an average; at 799 one still does.
- The stream registry forgets by key, so a closed stream's late cleanup silences the stream that
  took over its key (`Sse.LateCleanupSilencesSuccessor`).
- No handler ever fails to find the driver profile it looks for, so `complete_ride`, which saves
  the ride before it looks, never stops half-way there (`MachineAuth.ProfileAlwaysFound`).

Where the code and its own documentation differ the model follows the code: driver locations are
the Redis geo-index (`src/ride_service/repositories/driver.py:40-44`), not the in-memory overlay
of `src/ride_service/repositories/__init__.py:8-11`; completed and cancelled rides do close their
streams (`src/ride_service/kafka_consumer.py:131`), although the repository's `README.md:119-120` says streams do
not exist yet.

## Model

| member | source | states |
|---|---|---|
| MachineRides.AtMostOneAccept | src/ride_service/services/ride.py:64-130 | in every interleaving of all handlers a ride has at most one saved accept and appears at most once on ride-accepted |
| MachineRides.NeverTwoDrivers | src/ride_service/services/ride.py:77-130 | over a run no ride row ever carries two different drivers, stale whole-row saves included |
| MachineRides.RowsAndSnapshotsConsistent | src/ride_service/services/ride.py:77-128 | every stored row and every row a task is about to save has the driver, version, fare and completion time its status calls for |
| MachineRides.TripsNeverChange | src/ride_service/services/ride.py:46-54 | rider, pickup, dropoff, time and quote of a ride never change, it never becomes REQUESTED again, and any fare equals the quote |
| MachineRides.RetractedForEver | src/ride_service/kafka_consumer.py:87-119 | once a handling of ride-accepted has completed, the ride's dispatched set stays absent for ever, under redelivery, retries and any topic order |
| MachineRides.NextOK | src/ride_service/services/ride.py:64-130 | every action keeps the joint invariant of rows, in-flight snapshots, lock holder and consumer |
| MachineRides.StepSafe | src/ride_service/services/ride.py:40-130 | every step of every handler keeps rows consistent, and outside the lock adds no saved or published accept |
| MachineRides.SaveSafe | src/ride_service/repositories/ride.py:51-55 | a full-row replace by a row of the same trip that is not REQUESTED keeps all row invariants, however stale the row |
| MachineRides.SettledStays | src/ride_service/kafka_consumer.py:87-119 | no action gives a retracted ride a dispatched set again |
| MachineOffers.EveryOutstandingOfferRetracted | src/ride_service/kafka_consumer.py:97-119 | in every run the offer_cancelled events of a handling go to exactly the drivers, other than the ride's own, holding an unretracted and unlapsed offer; only recorded offers are published |
| MachineOffers.NobodyToldTwice | src/ride_service/kafka_consumer.py:111-119 | a redelivered ride-accepted message tells nobody once one handling has completed |
| MachineOffers.FanOutAlone | src/ride_service/kafka_consumer.py:87-94 | a delivered ride-requested message of a ride still REQUESTED records and offers it to the driver of every available hit of the reply in order, and one of any other ride does nothing |
| MachineOffers.PublishesAll | src/ride_service/dispatch.py:96-110 | the publishing loop sends one offer to each nearby driver, in order |
| MachineOffers.AtMostOneLateFanOut | src/ride_service/kafka_consumer.py:87-94 | from any moment at which a ride is no longer REQUESTED at most one fan-out of it is still recorded, the one already begun, in every continuation |
| MachineSaves.CompletedFinalExactlyWhen | src/ride_service/services/ride.py:84-130 | after any run a completed ride's row is the same in every continuation if and only if no task holds a different row of it to save |
| MachineSaves.HeldCanLand | src/ride_service/services/ride.py:77-128 | any row a task holds to save can become the stored row by that task's own steps |
| MachineSaves.OneActivePerRiderExactlyWhen | src/ride_service/services/ride.py:43-54 | under any interleaving each rider has at most one active ride all through a run if and only if, at every save of an active row, the rider has no other active ride at that moment |
| MachineSaves.OneActiveExactlyWhen | src/ride_service/services/ride.py:43-54 | one action keeps riders to one active ride if and only if its save is guarded so |
| MachineSaves.ActiveSaves | src/ride_service/services/ride.py:77-92 | in reachable configurations the saves of active rows are those of request, accept and start |
| MachineSaves.CarefulRunsKeepOneActive | src/ride_service/services/ride.py:43-92 | it is enough that no two requests of a rider are past the check at once and no accept or start is about to save a ride cancelled or completed meanwhile |
| MachineSaves.OneHeldPerDriverExactlyWhen | src/ride_service/services/ride.py:64-92 | under any interleaving no driver holds two MATCHED or IN_PROGRESS rides all through a run if and only if, at every save of such a row, its driver holds no other at that moment |
| MachineSaves.NextWrites | src/ride_service/repositories/ride.py:51-55 | every action replaces exactly the one row its step saves, and no other table of rides changes |
| MachineAvailability.AgreementExactlyWhen | src/ride_service/repositories/driver.py:13-38 | under any interleaving the column and the set agree, on every driver no save is in the middle of, all through a run if and only if each last Redis half finds the row with its flag, or, torn down, has nothing left to write |
| MachineAvailability.AgreeingExactlyWhen | src/ride_service/repositories/driver.py:22-38 | one action keeps the agreement if and only if it ends no save uncleanly |
| MachineAvailability.SeparateSavesAgree | src/ride_service/repositories/driver.py:13-38 | it is enough that never two tasks are between the halves of a save of the same driver and none is torn down there |
| MachineAvailability.HoldersUnavailableExactlyWhen | src/ride_service/services/ride.py:69-79 | under any interleaving every driver holding a MATCHED or IN_PROGRESS ride is unavailable all through a run if and only if such rides are saved only for drivers whose row says no, and rows that say yes only for drivers who hold none |
| MachineAvailability.ExclusivityUnderInterleaving | src/ride_service/services/ride.py:64-130 | driver exclusivity holds all through a run if and only if both of these guards on saves hold all through it |
| MachineAvailability.NextWritesDriver | src/ride_service/repositories/driver.py:13-38 | every action writes at most one driver row, the one its task holds, or moves that driver in the set, and nothing else writes either record |
| MachineUsers.UpgradeKeptExactlyWhen | src/ride_service/services/rating.py:75-80 | after any run a stored DRIVER role stays in every continuation if and only if no rating is about to save a row of the user read before the upgrade |
| MachineUsers.CountersExactlyWhen | src/ride_service/services/rating.py:57-80 | under any interleaving users' counters and the ratings still to be counted make up the ratings table all through a run if and only if every user row saved carries the stored counter, plus one in rate, and no rating is torn down before it is counted |
| MachineUsers.SettledCounter | src/ride_service/services/rating.py:75-80 | after such a run, once no rating of a user is under way, the counter is the number of ratings to the user |
| MachineUsers.CountedExactlyWhen | src/ride_service/services/rating.py:57-80 | one action keeps the counters if and only if its save is fresh and it drops no rating |
| MachineUsers.NextWritesUser | src/ride_service/repositories/user.py:33-37 | every action replaces exactly the one user row its step saves |
| MachineAuth.DriverTokensHaveProfiles | src/ride_service/routers/auth.py:32-79 | every DRIVER token ever issued names a stored user, and that user has a driver profile at every later moment of every interleaving |
| MachineAuth.DriverRowsHaveProfiles | src/ride_service/services/rating.py:75-80 | neither stored user rows nor rows tasks are about to save are ever DRIVER without a profile, stale saves of rate included |
| MachineAuth.ProfileAlwaysFound | src/ride_service/services/ride.py:69-73 | through the guarded routes no handler's search for a driver profile ever fails, so the 403 of accept and the 404 of mark and go-online are unreachable |
| MachineAuth.AdmittedExactlyWhen | src/ride_service/auth/dependencies.py:31-57 | a call is admitted if and only if its token was issued in a stored user's name, in DRIVER mode on the driver's routes |
| MachineAuth.DriverModeHasProfile | src/ride_service/auth/dependencies.py:31-57 | whoever passes the DRIVER guard with an issued token is a stored user with a profile |
| MachineAuth.SaveUserSafe | src/ride_service/repositories/user.py:33-37 | replacing a user row by any snapshot of it, however stale, keeps names unique and DRIVER rows profiled |
| MachineAuth.StepSafe | src/ride_service/routers/driver.py:31-38 | every step of every handler keeps accounts, tokens, rides' drivers and in-flight user rows sound: an account is upgraded, and a DRIVER token issued, only once its profile is stored |
| MachineAuth.NextOK | src/ride_service/auth/dependencies.py:31-57 | every action keeps the account invariant, and accounts, names and profiles only grow |
| MachineSurge.FareProvenance | src/ride_service/services/ride.py:46-54 | every ride's recorded quote is of the trip its rider asked for, from the row's pickup to its dropoff; its fare is 200 cents and 150 a kilometre of that trip, to within half a cent, times one multiplier in [1.00, 3.00] served for the trip's cell within 30 seconds of its computation from counts of the run; it never changes, and any fare charged equals it |
| MachineSurge.FareOfThePoints | src/ride_service/services/ride.py:134-148 | whatever functions of the points distance and cell are, the fare is that of the distance between the row's own pickup and dropoff at a multiplier computed for its pickup's cell |
| MachineSurge.RunAsked | src/ride_service/services/ride.py:46-54 | after every run each stored ride has the trip some admitted request of the same rider named |
| MachineSurge.ServedIsFresh | src/ride_service/pricing.py:69-78 | in every interleaving the multiplier a request goes on with was computed from the counts of some call for its cell less than 30 seconds before it was served |
| MachineSurge.CacheReadsParse | src/ride_service/pricing.py:53-59 | whatever the interleaving, a live cache entry parses, to a value written less than 30 seconds ago |
| MachineSurge.StoreSafe | src/ride_service/pricing.py:76-78 | a miss backs both the entry and the multiplier returned by its own write, and keeps every other entry's |
| MachineSurge.NextOK | src/ride_service/pricing.py:69-78 | every action keeps cache entries backed by writes and quotes by served multipliers |
| MachineHistory.RowProvenance | src/ride_service/services/ride.py:77-128 | in every interleaving each stored row that is not REQUESTED is one transition, written out, from the row stored at some earlier moment; a completed ride was IN_PROGRESS then and its completion time is the clock then |
| MachineHistory.HeldRowProvenance | src/ride_service/services/ride.py:77-128 | so is every row a task is about to save, however stale |
| MachineHistory.RequestProvenance | src/ride_service/services/ride.py:43-52 | a ride's time of request is the clock at a moment at which its rider had no ride REQUESTED, MATCHED or IN_PROGRESS |
| MachineHistory.SurgeProvenance | src/ride_service/services/ride.py:134-148 | the counts behind every multiplier written for a cell are those of earlier moments: the REQUESTED rides within 0.01 degrees of the pickup of a trip asked for in that cell, and the drivers of a possible search answer that were in the availability set |
| MachineHistory.RatingProvenance | src/ride_service/services/rating.py:40-63 | in every interleaving each rating was given for a ride COMPLETED when read, by the rider to the driver or by the driver to the rider |
| MachineHistory.RunKnown | src/ride_service/services/ride.py:40-130 | the invariant behind these: every fact a task, row or table rests on was true of the stores at some moment of the run |
| MachineHistory.StepFacts | src/ride_service/services/ride.py:40-130 | every fact a task goes on with it had before, or is true of the stores at that step |
| MachineRatings.RatersAreParticipants | src/ride_service/services/rating.py:46-53 | seen from any later moment, even if the row was overwritten, the rider rated the driver whose accept was saved, or that driver the rider |
| MachineRatings.PairsStayUnique | src/ride_service/repositories/rating.py:35-44 | no interleaving of check and insert gives two ratings of one ride by one user |
| MachineRatings.AtMostTwoPerRide | src/ride_service/services/rating.py:46-63 | no ride has three ratings, in any interleaving |
| MachineTopics.EveryChangeAnnouncedOnce | src/ride_service/services/ride.py:53-130 | in every run, of every topic and ride, the messages published, still owed and lost with a task torn down are exactly one for each row saved in the status announced and one for each repetition by the retry job |
| MachineTopics.AllAnnounced | src/ride_service/services/ride.py:53-130 | once all calls are done and none was torn down, each topic has exactly those messages |
| MachineTopics.AcceptAnnounced | src/ride_service/services/ride.py:77-82 | a saved accept is on ride-accepted, or stands between save and publishing, or was torn down there, exactly one of them once |
| MachineTopics.NextAccount | src/ride_service/services/ride.py:53-130 | one action adds to what is published and owed exactly what it saves and repeats, and takes off only what it tears down |
| MachineStreams.NextSignals | src/ride_service/kafka_consumer.py:97-143 | every action of every configuration sends exactly the events written out for it |
| MachineStreams.CompletedMessage | src/ride_service/kafka_consumer.py:122-131 | a delivered ride-completed message, whatever else is under way, closes the stream if and only if the row read is COMPLETED, and does nothing else |
| MachineStreams.CancelledMessage | src/ride_service/kafka_consumer.py:136-143 | a delivered ride-cancelled message closes the stream if and only if the ride is stored, and does nothing else |
| MachineStreams.AcceptedMessage | src/ride_service/kafka_consumer.py:97-119 | a delivered ride-accepted message, not interrupted, sends one arrival time if the driver is located, tells every dispatched driver but the ride's own, and deletes the set; of no stored ride it does nothing |
| MachineStreams.ClosedForAReason | src/ride_service/kafka_consumer.py:122-143 | in every run a stream is closed only for a ride once stored as COMPLETED, a published cancellation, or a driver who asked to go offline |
| MachineOrder.MarkedBeforeMatched | src/ride_service/services/ride.py:76-79 | in every interleaving an accept about to save its match has had the driver unavailable in the row and in the set |
| MachineOrder.FreedBeforeCancelled | src/ride_service/services/ride.py:123-128 | a cancel about to save has had the driver of the ride, if any, available in the row and in the set |
| MachineOrder.CompletedBeforeFreed | src/ride_service/services/ride.py:101-110 | a complete about to free the driver has had the completed row stored |
| MachineOrder.SavedBeforeAnnounced | src/ride_service/services/ride.py:53-130 | a handler about to publish has had the very row it announces stored |
| MachineOrder.LocatedBeforeMarked | src/ride_service/services/driver.py:36-46 | go_online about to save the flag has had the driver in the geo-index, go_offline has had it out |
| Routes.EveryRouteKeepsItsPromise | src/ride_service/routers/driver.py:31-78 | every call the guards admit, its steps not interrupted, ends and keeps the written-out promise for the user its token names, in every world |
| Routes.ServeKept | src/ride_service/services/ride.py:40-130 | every serial call keeps its written-out promise: refusals and codes, each column, each message, and nothing else |
| SerialCalls.DemandCounted | src/ride_service/repositories/ride.py:107-114 | count_pending_near is the number of REQUESTED rows whose pickup is within 0.01 degrees in both coordinates |
| AcceptSerial.AcceptsAreSerializable | src/ride_service/services/ride.py:64-82 | any concurrent accepts, in any interleaving, answer and leave the world as the serial calls in lock-acquisition order do; when all are done the order has each call once |
| AcceptSerial.EveryStepCounts | src/ride_service/services/ride.py:64-82 | a step of the lock's holder or of a waiter for the free lock reduces the remaining work, refusals included; any other step changes nothing |
| AcceptSerial.NeverStuck | src/ride_service/services/ride.py:64-82 | while a call is unfinished some step is enabled |
| AcceptSerial.BoundedWork | src/ride_service/services/ride.py:64-82 | n accepts take at most 9n effective steps in any interleaving |
| AcceptSerial.AllFinish | src/ride_service/services/ride.py:64-82 | from every moment of every run all accepts can be run to their end |
| AcceptSerial.RunSimulates | src/ride_service/services/ride.py:64-82 | at every moment the holder, left alone, would end as the serial calls do |
| Uninterrupted.UninterruptedIsSerial | src/ride_service/services/ride.py:40-130 | every handler run without interruption leaves the world and answers exactly as its serial call, on every branch |
| Uninterrupted.AcceptAlone | src/ride_service/services/ride.py:64-82 | the steps of accept_ride make up the serial accept |
| Uninterrupted.CompleteAlone | src/ride_service/services/ride.py:94-112 | the steps of complete_ride make up the serial complete, the missing-profile exit after the save included |
| Uninterrupted.CancelAlone | src/ride_service/services/ride.py:114-130 | the steps of cancel_ride make up the serial cancel |
| Uninterrupted.LoginAlone | src/ride_service/routers/auth.py:46-56 | the steps of login issue a token in the stored role |
| Uninterrupted.SwitchAlone | src/ride_service/routers/auth.py:59-79 | the steps of switch-mode to DRIVER issue a DRIVER token to a stored DRIVER and refuse anybody else |
| Uninterrupted.RequestAlone | src/ride_service/services/ride.py:40-56 | the steps of request_ride, search and surge cache included, make up the serial request |
| Uninterrupted.SurgeAlone | src/ride_service/pricing.py:69-91 | a cache hit, a miss and an unparsable entry go on to the multiplier the serial call serves, and then to the save |
| Uninterrupted.RateAlone | src/ride_service/services/rating.py:36-80 | the steps of rate make up the serial rating |
| Uninterrupted.OnlineAlone | src/ride_service/services/driver.py:36-39 | the steps of go_online make up the serial call |
| Uninterrupted.OfflineAlone | src/ride_service/services/driver.py:41-46 | the steps of go_offline, closing the driver's stream at the end, make up the serial call |
| Uninterrupted.LocationAlone | src/ride_service/services/driver.py:60-68 | the steps of update_location, its query for a held ride and the event to it included, make up the serial call |
| Uninterrupted.RegisterAlone | src/ride_service/routers/driver.py:31-38 | the steps of driver registration make up the serial call |
| Uninterrupted.SignUpAlone | src/ride_service/routers/auth.py:32-43 | the steps of account registration make up the serial call |
| Uninterrupted.MarkAlone | src/ride_service/services/driver.py:48-58 | marking a driver saves the re-read row with the flag in both stores, or ends in 404 |
| Uninterrupted.RetryAlone | src/ride_service/stale_ride_retry.py:49-60 | retry_once publishes each ride REQUESTED for over two minutes once more, and nothing else |
| SerialInMachine.SerialRunsAreMachineRuns | src/ride_service/services/ride.py:40-130 | every world a serial run reaches is reached by a run of the step machine through the guarded routes |
| SerialInMachine.SerialCallIsARun | src/ride_service/auth/dependencies.py:44-57 | an admitted call, whatever other tasks stand where and, unless it is an accept, whoever has the lock, can run through and serve the serial call |
| Races.CompletedRideCancelled | src/ride_service/services/ride.py:114-130 | a run in which a stale cancel turns a completed ride into a cancelled one: COMPLETED is not final under interleaving |
| Races.CancelAfterComplete | src/ride_service/services/ride.py:94-130 | that overwrite is open for every matched ride in every configuration, whoever has the lock |
| Races.TwoActiveRides | src/ride_service/services/ride.py:43-56 | a run in which one rider gets two active rides: the unlocked check does not exclude it under interleaving |
| Races.RevivedRideIsSecondActive | src/ride_service/services/ride.py:64-82 | a run in which an accept revives a ride its rider cancelled, beside the one requested since |
| Races.AcceptAfterCancel | src/ride_service/services/ride.py:64-130 | that revival is open wherever a ride waits, its driver is free and so is the lock, for any trip and any answer of the search |
| Races.BothRequestsSaved | src/ride_service/services/ride.py:43-56 | that race is open for every signed-in rider without an active ride, any two trips and any answers of the searches |
| Races.DriverRoleLost | src/ride_service/services/rating.py:75-80 | a run in which a rating takes a registered driver's role back: login gives a RIDER token, switch-mode 403, registration 409 |
| Races.RegisterWithinRate | src/ride_service/routers/driver.py:31-38 | that loss is open for every rated rider without a profile |
| Races.RatingNotCounted | src/ride_service/services/rating.py:57-80 | a run after which, all calls done, one rating in the table was never counted |
| Races.RecordsDisagree | src/ride_service/services/driver.py:36-58 | a run after which, all calls done, the set offers a driver whose row says unavailable |
| Races.OfflineWithinOnline | src/ride_service/repositories/driver.py:22-38 | that disagreement is open for every driver once all calls are done |
| SerialRides.RunsAreSound | src/ride_service/services/ride.py:40-130 | every serial run keeps rows consistent, at most one active ride per rider, and the Redis set equal to the drivers whose row says available |
| SerialRides.ExclusivityExactlyWhen | src/ride_service/services/ride.py:43-130 | all through a serial run each driver holds at most one MATCHED or IN_PROGRESS ride and is unavailable then, if and only if no busy driver goes online or is freed by a repeated cancel |
| SerialRides.ExclusiveExactlyWhen | src/ride_service/services/ride.py:43-130 | one call keeps driver exclusivity if and only if it is not one of the two undisciplined calls |
| SerialRides.OnlineExclusive | src/ride_service/services/driver.py:36-39 | going online keeps exclusivity if and only if the driver holds no ride |
| SerialRides.CancelExclusive | src/ride_service/services/ride.py:114-130 | a cancel keeps exclusivity if and only if it does not free a driver who holds another ride |
| SerialRides.SavesOneRow | src/ride_service/repositories/ride.py:51-55 | a call saves at most one ride row, a new one or a legal transition of the stored one |
| SerialRides.TakenOffDemand | src/ride_service/repositories/ride.py:107-114 | matching or cancelling a waiting ride lowers the demand at its own pickup by exactly one |
| SerialRides.CompletedIsFinal | src/ride_service/services/ride.py:114-119 | in serial runs a completed row is never written again |
| SerialRides.NearbyAgreesWithRows | src/ride_service/dispatch.py:41-70 | the search finds, nearest first without repeats, exactly the drivers whose rows say available among the 20 nearest, and all in range when at most 20 are |
| SerialWitnesses.OnlineRestrictionNeeded | src/ride_service/services/driver.py:36-39 | a run with one undisciplined go_online books a driver twice |
| SerialWitnesses.CancelRestrictionNeeded | src/ride_service/services/ride.py:114-124 | a run with one undisciplined repeated cancel books a driver twice |
| SerialRatings.CountersAgree | migrations/versions/0003_rating_count.py:23-37 | a user's count is the number of ratings to them, a driver's the number since the profile was created and never more, and an average is absent exactly when the count is 0 |
| SerialRatings.AveragesDriftLittle | src/ride_service/services/rating.py:65-80 | in every serial run each stored average, user's or driver's, lies in [1.00, 5.00] and within (n+1)/4 hundredths of the true mean of its n scores |
| SerialRatings.RunsRateSoundly | src/ride_service/services/rating.py:36-80 | every serial run keeps each rating between the two participants of a completed ride, pairs unique, and all averages the running means of the table |
| SerialRatings.AtMostTwoPerRide | src/ride_service/services/rating.py:46-56 | no ride has three ratings |
| SerialRatings.RatedRideIsFrozen | src/ride_service/services/rating.py:43-44 | a rated ride's row is the same completed row for the rest of the run |
| RideRows.TransitionKeepsRow | src/ride_service/services/ride.py:77-128 | each saved transition of a consistent row is a consistent row of the same trip, not REQUESTED, and never starts from COMPLETED |
| RatingMath.DriftBound | src/ride_service/services/rating.py:14-20 | the rounded running mean a of n scores with sum S has 4·abs(n·a − 100·S) at most n(n+1), in hundredths |
| RatingMath.MeanInRange | src/ride_service/services/rating.py:14-20 | running means of scores 1..5 stay in [1.00, 5.00] |
| RatingMath.MovesExactlyWhen | src/ride_service/services/rating.py:14-20 | a score moves a stored average if and only if it differs from it by at least half a hundredth times the new count (by more, when the score is lower) |
| RatingMath.FrozenFrom800 | src/ride_service/services/rating.py:14-20 | from 800 ratings on no score moves an average in [1.00, 5.00] |
| RatingMath.StillMovesAt799 | src/ride_service/services/rating.py:14-20 | after 799 ones a five moves 1.00 to 1.01, so 800 is tight |
| RatingMath.CountIsLength | src/ride_service/services/rating.py:65-80 | the count is the number of scores and the average is absent exactly when there are none |
| Surge.DoubleRoundingExactlyWhen | src/ride_service/pricing.py:36-41 | dividing at 28 digits half-even, clamping and quantizing half-up equals one half-up rounding of the clamped ratio if and only if the ratio keeps its distance from the next boundary |
| Surge.DoubleRoundingHarmless | src/ride_service/pricing.py:36-41 | so it always does for up to 10^25 free drivers |
| Surge.DoubleRoundingFirstFailure | src/ride_service/pricing.py:36-41 | at 10^25 + 1 free drivers there is a count of pending rides for which it does not |
| Surge.MultiplierInRange | src/ride_service/pricing.py:36-41 | the multiplier lies in [1.00, 3.00] for all counts |
| Surge.SurgeMonotone | src/ride_service/pricing.py:36-41 | more pending rides or fewer free drivers, none included, never lower the multiplier, for all counts |
| Surge.Zones | src/ride_service/pricing.py:36-41 | where the 28-digit quotient of any two counts lies, digit search included |
| SurgeText.PrintedMultiplier | src/ride_service/pricing.py:58-59 | the text of a two-place multiplier is a digit, a point and two digits, and that of the constant 3.0 |
| SurgeText.ParsePrint | src/ride_service/pricing.py:53-59 | reading back the text of any multiplier gives the same decimal |
| Fares.FareWithinHalfCent | src/ride_service/pricing.py:20-50 | a quote is 200 cents and 150 a kilometre, times the multiplier, to within half a cent |
| Fares.OneMoreKilometre | src/ride_service/pricing.py:20-33 | at multiplier 1.00 one more kilometre costs exactly 150 cents, whatever the distance |
| Fares.FareMonotoneInDistance | src/ride_service/pricing.py:32-50 | a longer trip never costs less |
| Fares.FareMonotoneInMultiplier | src/ride_service/pricing.py:48-50 | a higher multiplier never costs less |
| Fares.FareAtLeastBase | src/ride_service/pricing.py:20-50 | with a multiplier of at least 1 no quote is below 2.00 |
| Fares.SplittingCostsMore | src/ride_service/pricing.py:32-50 | two part trips always cost more than the whole |
| Pricing.RecomputesExactlyWhen | src/ride_service/pricing.py:69-78 | in time-ordered serial calls a call recomputes if and only if no call for its cell recomputed in the last 30 seconds |
| Pricing.ServedWasRecentlyComputed | src/ride_service/pricing.py:69-78 | every multiplier returned was computed by a call for the same cell less than 30 seconds before |
| Pricing.EntryIsLastRecompute | src/ride_service/pricing.py:53-59 | the entry is what the last recomputation stored, its life untouched by hits |
| Pricing.ReadsBackUntilDeadline | src/ride_service/pricing.py:53-59 | what is set is read back, as the same decimal, for 30 seconds and no longer; other cells read as before |
| Pricing.SurgeCache.Set | src/ride_service/pricing.py:58-59 | the entry becomes the printed value with 30 seconds to live, all entries still parse |
| Pricing.PricingService.GetSurgeMultiplier | src/ride_service/pricing.py:69-78 | read through the cache, computing and storing on a miss |
| Pricing.PricingService.GetFareQuote | src/ride_service/pricing.py:80-91 | the fare of the multiplier served |
| Dispatch.AnswersExactlyWhen | src/ride_service/dispatch.py:41-61 | the replies serial runs allow are exactly those GEOSEARCH can give for some distances of the located drivers |
| Dispatch.NearbySearch | src/ride_service/dispatch.py:41-70 | filtering the 20 nearest by availability gives exactly the available ones, nearest first without repeats, and all available in range when at most 20 are |
| Dispatch.MembersAreOutstanding | src/ride_service/dispatch.py:91-94 | the dispatched set is exactly the drivers with a recorded, unretracted offer whose 300 seconds, restarted by each fan-out, never lapsed |
| Dispatch.Dispatcher.FanOut | src/ride_service/dispatch.py:86-110 | records and publishes an offer to each nearby driver, and nothing when there is none |
| Dispatch.Dispatcher.HandleRideRequested | src/ride_service/kafka_consumer.py:87-94 | records and publishes an offer to each nearby driver for a ride still REQUESTED, and does nothing otherwise |
| Dispatch.Dispatcher.HandleRideAccepted | src/ride_service/kafka_consumer.py:97-119 | sends the rider one arrival time if the driver is located, tells each driver with an outstanding offer, other than the winner, exactly once, and retracts the set |
| Dispatch.Dispatcher.HandleRideCompleted | src/ride_service/kafka_consumer.py:122-131 | closes the ride's stream exactly when the row read is COMPLETED |
| Dispatch.Dispatcher.HandleRideCancelled | src/ride_service/kafka_consumer.py:136-143 | closes the ride's stream exactly when the ride exists |
| Dispatch.Dispatcher.TellOthers | src/ride_service/kafka_consumer.py:116-118 | the loop over the set names every member but the winner once |
| EventStream.DecodeFormatAll | src/ride_service/sse.py:48-49 | a client reading by sections 9.2.5 and 9.2.6 of the HTML Living Standard gets back exactly the formatted events in order |
| EventStream.FormatText | src/ride_service/sse.py:48-49 | the frame of an event, character by character |
| EventStream.DecodeFormat | src/ride_service/sse.py:48-49 | one formatted event decodes to itself, whatever follows |
| Sse.EndToEnd | src/ride_service/sse.py:24-64 | in every interleaving a stream's decoded bytes and its queue together are exactly the events emitted to its key from its register to the first complete, unregister or re-register, and nothing follows the close sentinel |
| Sse.NeverRegisteredTwice | src/ride_service/sse.py:24-27 | no queue is registered under two keys or again after losing its key |
| Sse.LateCleanupSilencesSuccessor | src/ride_service/sse.py:30-64 | after a closed stream's late cleanup nothing reaches the stream that took over its key |
| Sse.RunTracks | src/ride_service/sse.py:24-64 | the inductive form: queue, bytes and registration follow the operations since the register |
| Sse.Registry.Register | src/ride_service/sse.py:24-27 | a fresh queue takes over the key |
| Sse.Registry.Unregister | src/ride_service/sse.py:30-33 | the key is forgotten, whoever's queue it names |
| Sse.Registry.Emit | src/ride_service/sse.py:36-39 | the event goes to the key's queue, or nowhere |
| Sse.Registry.Complete | src/ride_service/sse.py:42-45 | the key is forgotten and its queue gets the sentinel |
| Sse.Stream.constructor | src/ride_service/sse.py:52-55 | entering the generator registers its own new queue |
| Sse.Stream.Resume | src/ride_service/sse.py:56-62 | one turn of the loop: wait, write the next event, or leave at the sentinel through the cleanup |
| Sse.Stream.Exit | src/ride_service/sse.py:63-64 | the cleanup unregisters the key |
| Stores.DriverRepository.Save | src/ride_service/repositories/driver.py:13-38 | the row and the availability set change together, the geo-index not at all |
| Stores.RideRepository.Save | src/ride_service/repositories/ride.py:51-55 | full-row replace |
| Worlds.ActiveAfterSave | src/ride_service/repositories/ride.py:62-68 | after a full-row replace the query finds an active ride of a rider exactly if the saved row is REQUESTED, MATCHED or IN_PROGRESS, or another of the rider's rows is |
| Worlds.PendingAfterSave | src/ride_service/repositories/ride.py:107-114 | a full-row replace moves the count by the row's leaving and entering the REQUESTED rides within 0.01 degrees of the point, and nothing else |
| Worlds.DemandFalls | src/ride_service/repositories/ride.py:107-114 | saving a row that is not REQUESTED never raises the demand anywhere, and lowers it by one at the pickup of the waiting ride it replaces |
| Worlds.RatedAfterInsert | src/ride_service/repositories/rating.py:35-44 | an insert adds exactly its own pair of ride and rater to those the query finds |
| Services.RideService.RequestRide | src/ride_service/services/ride.py:40-56 | refused with 409 while the rider has an active ride; otherwise saves the REQUESTED row of the trip and time, quoted at the cached multiplier or that of demand and supply, and publishes it once; as the serial request |
| Services.RideService.AcceptRide | src/ride_service/services/ride.py:64-82 | each refusal and code; when granted the row is MATCHED with the driver, the driver unavailable in both stores, and exactly the ride appended to ride-accepted; as the serial accept |
| Services.RideService.StartRide | src/ride_service/services/ride.py:84-92 | each refusal and code; the row IN_PROGRESS and nothing else; as the serial start |
| Services.RideService.CompleteRide | src/ride_service/services/ride.py:94-112 | each refusal and code; the quote becomes the fare, now the time of completion, the driver free, and the ride appended to ride-completed; as the serial complete |
| Services.RideService.CancelRide | src/ride_service/services/ride.py:114-130 | each refusal and code; the row CANCELLED, its driver free, and the ride appended to ride-cancelled; as the serial cancel |
| Services.DriverService.Mark | src/ride_service/services/driver.py:48-58 | the driver's re-read row with the flag set, in both stores |
| Services.DriverService.GoOnline | src/ride_service/services/driver.py:36-39 | 404 without a profile; otherwise located there, and available in both stores; as the serial call |
| Services.DriverService.GoOffline | src/ride_service/services/driver.py:41-46 | 404 without a profile; otherwise not located, unavailable in both stores, and the stream closed; as the serial call |
| Services.DriverService.UpdateLocation | src/ride_service/services/driver.py:60-68 | 404 without a profile; otherwise stores the location and tells the stream of a MATCHED or IN_PROGRESS ride of the driver, if there is one, the point and the dropoff; as the serial call |
| Services.RatingService.Rate | src/ride_service/services/rating.py:36-80 | each refusal and code; the rider rates the driver and the driver the rider, once each, and the columns of the one rated take in the score; as the serial rating |
| Services.Accounts.Login | src/ride_service/routers/auth.py:46-56 | 401 for an unknown name or a failed password check; otherwise a token in the stored role |
| Services.Accounts.SwitchMode | src/ride_service/routers/auth.py:59-79 | back to RIDER always; to DRIVER a token for a stored DRIVER, 401 or 403 otherwise |
| Services.Accounts.SignUp | src/ride_service/routers/auth.py:32-43 | 409 for a taken name; otherwise an unrated RIDER and a RIDER token; as the serial sign-up |
| Services.Accounts.RegisterDriver | src/ride_service/routers/driver.py:31-38 | 409 with a profile; otherwise an unrated, unavailable profile, the role DRIVER and a DRIVER token; as the serial registration |
| Services.StaleRideRetry.RetryOnce | src/ride_service/stale_ride_retry.py:49-60 | every ride REQUESTED for over two minutes is published once more, each once, and nothing else changes |

## Left out

- Haversine, ETA and the surge cell of a location (`src/ride_service/geo.py`, `src/ride_service/pricing.py:44-45`): floats and trigonometry; a trip carries its distance, any non-negative rational, and its cell; `MachineSurge.FareOfThePoints` holds for whatever functions of the points they are. A search answers any list that GEOSEARCH could give for some distances of the located drivers (`Dispatch.AnswersExactlyWhen`).
- Float rating arithmetic: the code divides floats and rounds their shortest text; the model rounds the exact quotient half up.
- RatingMath.MovesExactlyWhen: speaks of the exact quotient; on which side of an exact tie the float quotient's text falls is not modelled.
- Decimal rounding of fare products to 28 digits: the products are taken as exact; two-place multipliers and distances of ordinary length stay within 28 digits.
- The 19-digit width of the fare column: fares are unbounded.
- SQLAlchemy sessions, merge internals, engines, migrations, Redis and Kafka clients, lifespan start and stop: one repository, Redis or Kafka call is one atomic step.
- SADD and EXPIRE of a dispatched set are one step, and time-to-live counts whole seconds.
- Rate limiting, password hashing, token signing and expiry, cookies, request parsing and response mapping: a token is a username and a role that were issued; resolving it to a user is one step at admission.
- Password hashes, rating comments, rating ids and timestamps of ratings: no modelled property reads them.
- UUIDs: assumed new, and drawn when the row is saved; an identifier already in use makes that step wait in the step machine and is excluded by `Possible` in serial runs.
- The lock's queue: any waiting accept may take a free lock, so the theorems hold for first-in-first-out too.
- The queues behind the events handlers emit: the world records which events and closings handlers send to which stream; the registry is proved separately over arbitrary interleavings of register, unregister, emit, complete and stream turns, which include every way handlers can use it. Arrival minutes are a function of the two points.
- The bridge from Redis pub/sub to streams (`src/ride_service/ride_offer_listener.py`): plumbing.
- Read-only endpoints (ride history, profile, current position, me): no property.
- Login and switch-mode in serial runs: they are methods of `Services.Accounts` and calls of the step machine, but not serial commands, since no row depends on them.
- Rounded averages and the profile's own counter under interleaving: proved for serial runs; lost updates reach them as they reach the user's counter.
- AcceptSerial.AcceptsAreSerializable: assumes no writer other than the accepts, since every other handler writes the same rows without the lock.
- Sse.EndToEnd: assumes non-empty names and payloads without line breaks, as `json.dumps` and the four event names give.
- Several service instances: the code assumes one event loop.

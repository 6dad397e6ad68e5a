/** Interleavings of unlocked check-then-write handlers, from the empty service on: what
    SerialRides proves of every serial run need not hold of every interleaving. When exactly it
    does is the matter of MachineSaves and MachineAvailability. */
module Races {
  import opened Models
  import opened Surge
  import opened SurgeText
  import opened Fares
  import opened Pricing
  import opened Dispatch
  import opened RatingMath
  import opened Worlds
  import opened Machine
  import opened MachineFrames
  import opened Uninterrupted
  import opened SerialInMachine
  import MachineSurge
  import MachineUsers
  import Serial
  import SerialRatings
  import SerialRides
  import SerialWitnesses

  // ---------- a stale cancel overwrites a completed ride ----------

  /** The ride is matched to driver d, and everyone concerned is signed in. */
  predicate MatchedScene(w: World, ride: Id, d: Id) {
    && Badged(w) && SerialRides.Keyed(w.rides, w.drivers, w.users)
    && ride in w.rides && w.rides[ride].status == MATCHED && w.rides[ride].driver == Some(d)
  }

  /** The cancel after its read: it goes on to free the driver and save the row it made. */
  function Cancelling(w: World, ride: Id, d: Id): Task
    requires ride in w.rides
  {
    MarkRead(d, true, ToCancelSave(Cancelled(w.rides[ride])))
  }

  lemma CancelHasRead(c: Config, ride: Id, d: Id) returns (more: seq<Action>)
    requires MatchedScene(c.w, ride, d)
    ensures Exec(c, more) == c.(tasks := c.tasks + [Cancelling(c.w, ride, d)])
  {
    hide Exec;
    var rider := c.w.rides[ride].rider;
    var call := CallCancel(Token(c.w.users[rider].username, RIDER), rider, ride);
    var c1 := c.(tasks := c.tasks + [CancelRead(ride, rider)]);
    more := [Spawn(call)] + [Step(|c.tasks|, NOTHING)];
    OneAction(c, Spawn(call));
    OneAction(c1, Step(|c.tasks|, NOTHING));
    ExecConcat(c, [Spawn(call)], [Step(|c.tasks|, NOTHING)]);
  }

  /** start_ride and complete_ride of a matched ride, one after the other. */
  lemma StartedThenCompleted(w: World, ride: Id, d: Id)
    requires MatchedScene(w, ride, d)
    ensures d in w.drivers && d in w.users && Serial.Possible(w, Serial.DoStart(d, ride))
    ensures var w1 := Serial.Serve(w, Serial.DoStart(d, ride)).0;
            Badged(w1) && d in w1.drivers && Serial.Possible(w1, Serial.DoComplete(d, ride))
            && (var w2 := Serial.Serve(w1, Serial.DoComplete(d, ride)).0;
                ride in w2.rides && w2.rides[ride] == Completed(Started(w.rides[ride]), w.now) && d in w2.drivers
                && w2.users == w.users && w2.drivers.Keys == w.drivers.Keys && w2.ratings == w.ratings)
  {
  }

  lemma CancelLands(w: World, row: Ride, d: Id)
    requires d in w.drivers
    ensures var w' := Alone(w, MarkRead(d, true, ToCancelSave(row)), NOTHING).0;
            row.id in w'.rides && w'.rides[row.id] == row
  {
    hide Alone;
    MarkAlone(w, d, true, ToCancelSave(row), NOTHING);
    CancelSaveAlone(SaveDriver(w, w.drivers[d].(isAvailable := true)), row, NOTHING);
  }

  /** Before the cancel saves, the driver starts and completes the ride. */
  lemma CancelAfterComplete(c: Config, ride: Id, d: Id) returns (during: seq<Action>, more: seq<Action>)
    requires MatchedScene(c.w, ride, d)
    ensures ride in Exec(c, during).w.rides && Exec(c, during).w.rides[ride].status == COMPLETED
    ensures ride in Exec(c, during + more).w.rides
            && Exec(c, during + more).w.rides[ride] == Cancelled(c.w.rides[ride])
  {
    hide Exec, Serial.Serve, Admit, CallOf, FirstTask, Alone, Badged, Critical;
    var n := |c.tasks|;
    StartedThenCompleted(c.w, ride, d);
    var start, complete := Serial.DoStart(d, ride), Serial.DoComplete(d, ride);
    var a2 := CancelHasRead(c, ride, d);
    var c2 := Exec(c, a2);
    Admitted(c2.w, start);
    var a3 := SerialCallIsARun(c2, start, CallOf(c2.w, start), NOTHING);
    var c3 := Exec(c2, a3);
    Admitted(c3.w, complete);
    var a4 := SerialCallIsARun(c3, complete, CallOf(c3.w, complete), NOTHING);
    var c4 := Exec(c3, a4);
    assert c4.tasks[n] == Cancelling(c.w, ride, d);
    more := AloneIsARun(c4, n, NOTHING);
    CancelLands(c4.w, Cancelled(c.w.rides[ride]), d);
    during := a2 + a3 + a4;
    ExecConcat(c, a2, a3);
    ExecConcat(c, a2 + a3, a4);
    ExecConcat(c, during, more);
  }

  /** COMPLETED is final in every serial run (SerialRides.CompletedIsFinal), but not in every
      interleaving: a cancel that read the ride before it started, and saves after it was
      completed, turns the completed ride into a cancelled one without a fare. */
  lemma CompletedRideCancelled() returns (actions: seq<Action>, more: seq<Action>)
    ensures 11 in Exec(Start, actions).w.rides && Exec(Start, actions).w.rides[11].status == COMPLETED
    ensures 11 in Exec(Start, actions + more).w.rides
            && Exec(Start, actions + more).w.rides[11].status == CANCELLED
            && Exec(Start, actions + more).w.rides[11].completedAt == None
  {
    hide Exec, Serial.After, Badged;
    var run := MatchedRun;
    SerialWitnesses.AfterOpening();
    SerialWitnesses.Requested(SerialWitnesses.Opening, true, map[], 1, 1);
    SerialWitnesses.Accepted0(SerialWitnesses.Opening + [Serial.DoRequest(1, SerialWitnesses.Hop(1), [], 11)],
                              map[11 := SerialWitnesses.Look(1, None, REQUESTED)], 11);
    var first := SerialRunsAreMachineRuns(run);
    RunsBadged(run);
    SerialRides.RunsAreSound(run);
    var c := Exec(Start, first);
    assert c.w.rides[11].completedAt.None? by { Uncompleted(c.w, 11); }
    var during, rest := CancelAfterComplete(c, 11, 0);
    actions, more := first + during, rest;
    ExecConcat(Start, first, during);
    ExecConcat(Start, first, during + rest);
    assert first + during + rest == first + (during + rest);
  }

  const MatchedRun: seq<Serial.Command> :=
    SerialWitnesses.Opening + [Serial.DoRequest(1, SerialWitnesses.Hop(1), [], 11)] + [Serial.DoAccept(0, 11)]

  lemma Uncompleted(w: World, ride: Id)
    requires SerialRides.RowsConsistent(w.rides) && ride in w.rides && w.rides[ride].status == MATCHED
    ensures w.rides[ride].completedAt.None?
  {
  }

  // ---------- two requests of one rider ----------

  /** The multiplier is found, on a hit or a miss, and the cache stays readable. */
  lemma SurgeServed(w: World, cell: Cell, pending: nat, free: nat)
    requires Readable(w.surge)
    ensures var (w', m) := Serial.ServeSurge(w, cell, pending, free);
            m.Some? && Readable(w'.surge) && w'.rides == w.rides && w'.now == w.now && w'.located == w.located
  {
    hide ComputeMultiplier, Print, Parse;
    ParsePrint(ComputeMultiplier(pending, free));
  }

  /** What a request does once it has passed its check, whatever the search answers. */
  lemma RequestGoesThrough(w: World, rider: Id, trip: Trip, input: Input)
    requires ValidTrip(trip) && input.uuid !in w.rides && Readable(w.surge)
    requires Answers(w.located.Keys, SURGE_SEARCH_RADIUS_KM, input.reply)
    ensures var w' := Alone(w, RequestPending(rider, trip, w.now), input).0;
            w'.located == w.located && w'.now == w.now && Readable(w'.surge)
            && w'.rides.Keys == w.rides.Keys + {input.uuid}
            && (forall id :: id in w.rides ==> w'.rides[id] == w.rides[id])
            && w'.rides[input.uuid].rider == rider && w'.rides[input.uuid].status == REQUESTED
  {
    hide Alone, PendingNear, KeepAvailable, Answers, FareCents, Readable, Serial.ServeSurge;
    var pending, free := PendingNear(w, trip.pickup), |KeepAvailable(input.reply, w.available)|;
    OneStep(w, RequestPending(rider, trip, w.now), input);
    OneStep(w, RequestSearch(rider, trip, w.now, pending), input);
    OneStep(w, RequestFilter(rider, trip, w.now, pending, input.reply), input);
    SurgeServed(w, trip.cell, pending, free);
    SurgeAlone(w, rider, trip, pending, free, input);
  }

  /** The rider is signed in and has no active ride. */
  predicate FreshRider(w: World, rider: Id, t1: Trip, t2: Trip) {
    && Badged(w) && rider in w.users && !HasActiveRide(w, rider)
    && ValidTrip(t1) && ValidTrip(t2) && Readable(w.surge)
  }

  lemma CheckPassed(c: Config, rider: Id, trip: Trip) returns (more: seq<Action>)
    requires Badged(c.w) && rider in c.w.users && !HasActiveRide(c.w, rider) && ValidTrip(trip)
    ensures Exec(c, more) == c.(tasks := c.tasks + [RequestPending(rider, trip, c.w.now)])
  {
    hide Exec, HasActiveRide;
    var call := CallRequest(Token(c.w.users[rider].username, RIDER), rider, trip);
    var c1 := c.(tasks := c.tasks + [RequestCheck(rider, trip)]);
    more := [Spawn(call)] + [Step(|c.tasks|, NOTHING)];
    OneAction(c, Spawn(call));
    OneAction(c1, Step(|c.tasks|, NOTHING));
    ExecConcat(c, [Spawn(call)], [Step(|c.tasks|, NOTHING)]);
  }

  /** Both requests go through, for any two trips and whatever the searches answer. */
  lemma BothRequestsSaved(c: Config, rider: Id, t1: Trip, t2: Trip, in1: Input, in2: Input)
    returns (more: seq<Action>)
    requires FreshRider(c.w, rider, t1, t2)
    requires in1.uuid !in c.w.rides && in2.uuid !in c.w.rides && in1.uuid != in2.uuid
    requires Answers(c.w.located.Keys, SURGE_SEARCH_RADIUS_KM, in1.reply)
    requires Answers(c.w.located.Keys, SURGE_SEARCH_RADIUS_KM, in2.reply)
    ensures var rides := Exec(c, more).w.rides;
            SerialRides.ActiveFor(rides, rider, in1.uuid) && SerialRides.ActiveFor(rides, rider, in2.uuid)
  {
    hide Exec, Alone, HasActiveRide, Readable, Badged, Critical, Answers;
    var n := |c.tasks|;
    var a1 := CheckPassed(c, rider, t1);
    var c1 := Exec(c, a1);
    var a2 := CheckPassed(c1, rider, t2);
    var c2 := Exec(c1, a2);
    assert c2.tasks[n] == RequestPending(rider, t1, c.w.now);
    RequestGoesThrough(c2.w, rider, t1, in1);
    var a3 := AloneIsARun(c2, n, in1);
    var c3 := Exec(c2, a3);
    assert c3.tasks[n + 1] == RequestPending(rider, t2, c.w.now);
    RequestGoesThrough(c3.w, rider, t2, in2);
    var a4 := AloneIsARun(c3, n + 1, in2);
    more := a1 + a2 + a3 + a4;
    ExecConcat(c, a1, a2);
    ExecConcat(c, a1 + a2, a3);
    ExecConcat(c, a1 + a2 + a3, a4);
  }

  /** A rider has at most one active ride in every serial run (SerialRides.RunsAreSound), but
      not in every interleaving: two requests can both pass the check before either saves. */
  lemma TwoActiveRides() returns (actions: seq<Action>)
    ensures var rides := Exec(Start, actions).w.rides;
            SerialRides.ActiveFor(rides, 1, 11) && SerialRides.ActiveFor(rides, 1, 12)
  {
    hide Exec, Serial.After, Badged;
    var run := SerialWitnesses.Opening;
    SerialWitnesses.AfterOpening();
    var first := SerialRunsAreMachineRuns(run);
    RunsBadged(run);
    var c := Exec(Start, first);
    assert c.w.rides.Keys == {};
    MachineSurge.AlwaysReadable(first);
    var rest := BothRequestsSaved(c, 1, SerialWitnesses.Hop(1), SerialWitnesses.Hop(2),
                                  Input([], 11, []), Input([], 12, []));
    actions := first + rest;
    ExecConcat(Start, first, rest);
  }

  // ---------- an accept revives a cancelled ride ----------

  /** The rider's only active ride waits for a driver, driver d is free, and everyone
      concerned is signed in. */
  predicate WaitingScene(w: World, ride: Id, d: Id) {
    && Badged(w) && SerialRides.Keyed(w.rides, w.drivers, w.users)
    && ride in w.rides && w.rides[ride].status == REQUESTED && w.rides[ride].driver.None?
    && (forall id :: id in w.rides && SerialRides.ActiveFor(w.rides, w.rides[ride].rider, id) ==> id == ride)
    && d in w.drivers && w.drivers[d].isAvailable
  }

  lemma AcceptHasRead(c: Config, ride: Id, d: Id) returns (more: seq<Action>)
    requires c.lock.None? && WaitingScene(c.w, ride, d)
    ensures Exec(c, more) == c.(tasks := c.tasks + [AcceptReadDriver(c.w.rides[ride], d)],
                                lock := Some(|c.tasks|), order := c.order + [|c.tasks|])
  {
    hide Exec;
    var n := |c.tasks|;
    var call := CallAccept(Token(c.w.users[d].username, DRIVER), d, ride);
    var c1 := c.(tasks := c.tasks + [AcceptWait(ride, d)]);
    var c2 := c1.(tasks := c.tasks + [AcceptReadRide(ride, d)], lock := Some(n), order := c.order + [n]);
    more := [Spawn(call)] + [Step(n, NOTHING)] + [Step(n, NOTHING)];
    OneAction(c, Spawn(call));
    OneAction(c1, Step(n, NOTHING));
    assert c1.tasks[n := AcceptReadRide(ride, d)] == c2.tasks;
    OneAction(c2, Step(n, NOTHING));
    assert c2.tasks[n := AcceptReadDriver(c.w.rides[ride], d)] == c.tasks + [AcceptReadDriver(c.w.rides[ride], d)];
    ExecConcat(c, [Spawn(call)], [Step(n, NOTHING)]);
    ExecConcat(c, [Spawn(call)] + [Step(n, NOTHING)], [Step(n, NOTHING)]);
  }

  /** A request by a rider without an active ride, whatever the search answers. */
  lemma FreshRequest(w: World, rider: Id, trip: Trip, reply: seq<Hit>, uuid: Id)
    requires !HasActiveRide(w, rider) && ValidTrip(trip) && Readable(w.surge)
    ensures var w' := Serial.RequestRide(w, rider, trip, reply, uuid).0;
            SerialRides.ActiveFor(w'.rides, rider, uuid) && w'.drivers == w.drivers
  {
    hide HasActiveRide, PendingNear, KeepAvailable, Serial.ServeSurge, SaveNew, PublishRequested, FareCents, Readable;
    var pending, free := PendingNear(w, trip.pickup), |KeepAvailable(reply, w.available)|;
    var (w1, m) := Serial.ServeSurge(w, trip.cell, pending, free);
    SurgeServed(w, trip.cell, pending, free);
    SerialRides.ServeSurgeEffect(w, trip.cell, pending, free);
    SerialRides.SaveNewEffect(w1, NewRide(uuid, rider, trip, FareCents(trip.distance, m.value), w.now),
                              Quotation(trip, m.value, w.now));
  }

  /** The rider cancels the waiting ride. */
  lemma CancelledScene(w: World, ride: Id, d: Id)
    requires WaitingScene(w, ride, d)
    ensures var rider := w.rides[ride].rider;
            var w1 := Serial.CancelRide(w, ride, rider).0;
            rider in w.users && rider in w1.users && Badged(w1) && !HasActiveRide(w1, rider)
            && w1.rides.Keys == w.rides.Keys && w1.drivers == w.drivers && w1.surge == w.surge
            && w1.located == w.located
  {
  }

  /** The rider cancels the waiting ride and requests another. */
  lemma CancelledThenRequested(w: World, ride: Id, d: Id, trip: Trip, reply: seq<Hit>, uuid: Id)
    requires WaitingScene(w, ride, d) && ValidTrip(trip) && Readable(w.surge) && uuid !in w.rides
    requires Answers(w.located.Keys, SURGE_SEARCH_RADIUS_KM, reply)
    ensures var rider := w.rides[ride].rider; var cancel := Serial.DoCancel(rider, ride);
            Serial.Possible(w, cancel)
            && (var w1 := Serial.Serve(w, cancel).0;
                var request := Serial.DoRequest(rider, trip, reply, uuid);
                Badged(w1) && Serial.Possible(w1, request)
                && (var w2 := Serial.Serve(w1, request).0;
                    SerialRides.ActiveFor(w2.rides, rider, uuid) && w2.drivers == w.drivers))
  {
    hide Serial.CancelRide, Serial.RequestRide, HasActiveRide, Badged, Readable, Answers;
    CancelledScene(w, ride, d);
    FreshRequest(Serial.CancelRide(w, ride, w.rides[ride].rider).0, w.rides[ride].rider, trip, reply, uuid);
  }

  lemma MatchLands(w: World, s: Ride, d: Id)
    requires d in w.drivers && w.drivers[d].isAvailable
    ensures Alone(w, AcceptReadDriver(s, d), NOTHING).0.rides == w.rides[s.id := Matched(s, d)]
  {
    hide Alone, SaveDriver;
    OneStep(w, AcceptReadDriver(s, d), NOTHING);
    MarkAlone(w, d, false, ToAcceptSave(s, d), NOTHING);
    MatchAlone(SaveDriver(w, w.drivers[d].(isAvailable := false)), s, d, NOTHING);
    SavedRides(w, s, d);
  }

  lemma SavedRides(w: World, s: Ride, d: Id)
    requires d in w.drivers
    ensures var w1 := SaveDriver(w, w.drivers[d].(isAvailable := false));
            PublishAccepted(SaveMatch(w1, s, d), s.id).rides == w.rides[s.id := Matched(s, d)]
  {
  }

  /** Both calls served while other tasks, and the lock, stay where they are. */
  lemma CancelAndRequest(c: Config, ride: Id, d: Id, trip: Trip, reply: seq<Hit>, uuid: Id)
    returns (more: seq<Action>)
    requires WaitingScene(c.w, ride, d)
    requires ValidTrip(trip) && Readable(c.w.surge) && uuid !in c.w.rides
    requires Answers(c.w.located.Keys, SURGE_SEARCH_RADIUS_KM, reply)
    ensures var c' := Exec(c, more);
            c.tasks <= c'.tasks && c'.w.drivers == c.w.drivers
            && SerialRides.ActiveFor(c'.w.rides, c.w.rides[ride].rider, uuid)
  {
    hide Exec, Serial.Serve, Serial.Possible, Admit, CallOf, FirstTask, Badged, Readable, Answers,
      SerialRides.ActiveFor;
    var rider := c.w.rides[ride].rider;
    var cancel, request := Serial.DoCancel(rider, ride), Serial.DoRequest(rider, trip, reply, uuid);
    CancelledThenRequested(c.w, ride, d, trip, reply, uuid);
    Admitted(c.w, cancel);
    var a1 := SerialCallIsARun(c, cancel, CallOf(c.w, cancel), NOTHING);
    var c1 := Exec(c, a1);
    Admitted(c1.w, request);
    var a2 := SerialCallIsARun(c1, request, CallOf(c1.w, request), Input(reply, uuid, []));
    more := a1 + a2;
    ExecConcat(c, a1, a2);
  }

  lemma BothActive(rides: map<Id, Ride>, s: Ride, d: Id, id: Id)
    requires SerialRides.ActiveFor(rides, s.rider, id) && id != s.id
    ensures var rides' := rides[s.id := Matched(s, d)];
            SerialRides.ActiveFor(rides', s.rider, s.id) && SerialRides.ActiveFor(rides', s.rider, id)
  {
  }

  lemma AcceptAfterCancel(c: Config, ride: Id, d: Id, trip: Trip, reply: seq<Hit>, uuid: Id)
    returns (more: seq<Action>)
    requires c.lock.None? && WaitingScene(c.w, ride, d)
    requires ValidTrip(trip) && Readable(c.w.surge) && uuid !in c.w.rides
    requires Answers(c.w.located.Keys, SURGE_SEARCH_RADIUS_KM, reply)
    ensures var rides, rider := Exec(c, more).w.rides, c.w.rides[ride].rider;
            SerialRides.ActiveFor(rides, rider, ride) && SerialRides.ActiveFor(rides, rider, uuid)
  {
    hide Exec, Alone, Badged, Critical, Matched, Readable, Answers, SerialRides.ActiveFor;
    var n, s := |c.tasks|, c.w.rides[ride];
    var a1 := AcceptHasRead(c, ride, d);
    var a2 := CancelAndRequest(Exec(c, a1), ride, d, trip, reply, uuid);
    var c2 := Exec(Exec(c, a1), a2);
    assert c2.tasks[n] == AcceptReadDriver(s, d);
    var a3 := AloneIsARun(c2, n, NOTHING);
    MatchLands(c2.w, s, d);
    BothActive(c2.w.rides, s, d, uuid);
    more := a1 + a2 + a3;
    ExecConcat(c, a1, a2);
    ExecConcat(c, a1 + a2, a3);
  }

  const WaitingRun: seq<Serial.Command> :=
    SerialWitnesses.Opening + [Serial.DoRequest(1, SerialWitnesses.Hop(1), [], 11)]

  /** Two requests past their check are not the only way to two active rides: an accept that
      read a ride before its rider cancelled it, and requested another, makes it active again. */
  lemma RevivedRideIsSecondActive() returns (actions: seq<Action>)
    ensures var rides := Exec(Start, actions).w.rides;
            SerialRides.ActiveFor(rides, 1, 11) && SerialRides.ActiveFor(rides, 1, 12)
  {
    hide Exec, Serial.After, Badged;
    var run := WaitingRun;
    SerialWitnesses.AfterOpening();
    SerialWitnesses.Requested(SerialWitnesses.Opening, true, map[], 1, 1);
    var first := SerialRunsAreMachineRuns(run);
    RunsBadged(run);
    SerialRides.RunsAreSound(run);
    var c := Exec(Start, first);
    assert c.w.rides.Keys == {11};
    MachineSurge.AlwaysReadable(first);
    var rest := AcceptAfterCancel(c, 11, 0, SerialWitnesses.Hop(2), [], 12);
    actions := first + rest;
    ExecConcat(Start, first, rest);
  }

  // ---------- the two records of availability ----------

  /** One more task, in another world. */
  function With(c: Config, w: World, t: Task): Config {
    c.(w := w, tasks := c.tasks + [t])
  }

  lemma StepLast(c: Config, w: World, t: Task, w': World, t': Task)
    requires Outside(t) && StepTask(w, t, NOTHING) == (w', t')
    ensures Exec(With(c, w, t), [Step(|c.tasks|, NOTHING)]) == With(c, w', t')
  {
    hide StepTask;
    OneAction(With(c, w, t), Step(|c.tasks|, NOTHING));
    assert (c.tasks + [t])[|c.tasks| := t'] == c.tasks + [t'];
  }

  lemma OnlineSteps(w: World, d: Id, at: Point)
    requires d in w.drivers
    ensures StepTask(w, OnlineProfile(d, at), NOTHING) == (w, OnlineLocate(d, at))
    ensures StepTask(w, OnlineLocate(d, at), NOTHING)
            == (w.(located := w.located[d := at]), MarkRead(d, true, ToFinish))
    ensures Outside(OnlineProfile(d, at)) && Outside(OnlineLocate(d, at))
  {
  }

  lemma MarkSteps(w: World, d: Id)
    requires d in w.drivers
    ensures var row := w.drivers[d].(isAvailable := true);
            StepTask(w, MarkRead(d, true, ToFinish), NOTHING) == (w, DriverSave(row, ToFinish))
            && StepTask(w, DriverSave(row, ToFinish), NOTHING) == (SaveDriverRow(w, row), DriverSync(row, ToFinish))
            && Outside(MarkRead(d, true, ToFinish)) && Outside(DriverSave(row, ToFinish))
  {
    hide SaveDriverRow;
  }

  lemma OnlineAdmitted(c: Config, d: Id, at: Point) returns (call: Call)
    requires Badged(c.w) && d in c.w.drivers
    ensures Exec(c, [Spawn(call)]) == With(c, c.w, OnlineProfile(d, at))
  {
    call := CallOnline(Token(c.w.users[d].username, DRIVER), d, at);
    OneAction(c, Spawn(call));
  }

  /** go_online stopped between the two halves of its save. */
  lemma OnlineHalfway(c: Config, d: Id, at: Point) returns (more: seq<Action>)
    requires Badged(c.w) && d in c.w.drivers
    ensures var row := c.w.drivers[d].(isAvailable := true);
            Exec(c, more) ==
            With(c, SaveDriverRow(c.w.(located := c.w.located[d := at]), row), DriverSync(row, ToFinish))
  {
    hide Exec, SaveDriverRow, StepTask, Outside, With, Badged;
    var step := Step(|c.tasks|, NOTHING);
    var row := c.w.drivers[d].(isAvailable := true);
    var w := c.w.(located := c.w.located[d := at]);
    var call := OnlineAdmitted(c, d, at);
    OnlineSteps(c.w, d, at);
    MarkSteps(w, d);
    StepLast(c, c.w, OnlineProfile(d, at), c.w, OnlineLocate(d, at));
    StepLast(c, c.w, OnlineLocate(d, at), w, MarkRead(d, true, ToFinish));
    StepLast(c, w, MarkRead(d, true, ToFinish), w, DriverSave(row, ToFinish));
    StepLast(c, w, DriverSave(row, ToFinish), SaveDriverRow(w, row), DriverSync(row, ToFinish));
    more := [Spawn(call)] + [step] + [step] + [step] + [step];
    ExecConcat(c, [Spawn(call)], [step]);
    ExecConcat(c, [Spawn(call)] + [step], [step]);
    ExecConcat(c, [Spawn(call)] + [step] + [step], [step]);
    ExecConcat(c, [Spawn(call)] + [step] + [step] + [step], [step]);
  }

  lemma HalfwayScene(w: World, d: Id, at: Point)
    requires Badged(w) && d in w.drivers && w.drivers[d].userId == d
    ensures var w1 := SaveDriverRow(w.(located := w.located[d := at]), w.drivers[d].(isAvailable := true));
            Badged(w1) && d in w1.drivers && Serial.Possible(w1, Serial.DoOffline(d))
            && (var w2 := Serial.Serve(w1, Serial.DoOffline(d)).0;
                d in w2.drivers && w2.drivers[d].userId == d && !w2.drivers[d].isAvailable)
  {
  }

  /** A whole go_offline between the two halves of a go_online. */
  lemma OfflineWithinOnline(c: Config, d: Id, at: Point) returns (more: seq<Action>)
    requires Badged(c.w) && d in c.w.drivers && c.w.drivers[d].userId == d
    requires forall i :: 0 <= i < |c.tasks| ==> c.tasks[i].Done?
    ensures var c' := Exec(c, more);
            (forall i :: 0 <= i < |c'.tasks| ==> c'.tasks[i].Done?)
            && d in c'.w.available && d in c'.w.drivers && !c'.w.drivers[d].isAvailable
  {
    hide Exec, Serial.Serve, Serial.Possible, Admit, CallOf, FirstTask, Badged, SaveDriverRow;
    var offline := Serial.DoOffline(d);
    HalfwayScene(c.w, d, at);
    var a1 := OnlineHalfway(c, d, at);
    var c1 := Exec(c, a1);
    Admitted(c1.w, offline);
    var a2 := SerialCallIsARun(c1, offline, CallOf(c1.w, offline), NOTHING);
    more := a1 + a2 + [Step(|c.tasks|, NOTHING)];
    LastHalf(Exec(c1, a2), |c.tasks|);
    ExecConcat(c, a1, a2);
    ExecConcat(c, a1 + a2, [Step(|c.tasks|, NOTHING)]);
  }

  lemma LastHalf(c: Config, n: nat)
    requires n < |c.tasks| && c.tasks[n].DriverSync? && c.tasks[n].resume.ToFinish? && c.tasks[n].profile.isAvailable
    ensures var c' := Exec(c, [Step(n, NOTHING)]);
            c'.tasks == c.tasks[n := Done(Finished)] && c'.w.drivers == c.w.drivers
            && c'.w.available == c.w.available + {c.tasks[n].profile.userId}
  {
    hide StepTask, Critical;
    OneAction(c, Step(n, NOTHING));
    LastHalfStep(c.w, c.tasks[n]);
  }

  lemma LastHalfStep(w: World, t: Task)
    requires t.DriverSync? && t.resume.ToFinish? && t.profile.isAvailable
    ensures var (w', t') := StepTask(w, t, NOTHING);
            t' == Done(Finished) && w'.drivers == w.drivers && w'.available == w.available + {t.profile.userId}
  {
    hide StepMark, SameAccounts, SameRideTables, SameDriverTables;
    MarkFrame(w, t);
  }

  /** Postgres and Redis agree after every serial run (SerialRides.RunsAreSound), but not after
      every interleaving: with all calls done, the set offers a driver whose row says no. */
  lemma RecordsDisagree() returns (actions: seq<Action>)
    ensures var c := Exec(Start, actions);
            (forall i :: 0 <= i < |c.tasks| ==> c.tasks[i].Done?)
            && 0 in c.w.available && 0 in c.w.drivers && !c.w.drivers[0].isAvailable
  {
    hide Exec, Serial.After, Badged;
    SerialWitnesses.AfterOpening();
    var first := SerialRunsAreMachineRuns(SerialWitnesses.Opening);
    RunsBadged(SerialWitnesses.Opening);
    var rest := OfflineWithinOnline(Exec(Start, first), 0, SerialWitnesses.Here);
    actions := first + rest;
    ExecConcat(Start, first, rest);
  }

  // ---------- user rows ----------

  /** A completed ride that from may rate; the one rated, to, is a rider without a profile. */
  predicate RatableScene(w: World, ride: Id, from: Id, to: Id) {
    && Badged(w) && SerialRides.Keyed(w.rides, w.drivers, w.users)
    && ride in w.rides && w.rides[ride].status == COMPLETED && Serial.Ratee(w.rides[ride], from) == Some(to)
    && !HasRated(w.ratings, ride, from) && from in w.users
    && to in w.users && w.users[to].role == RIDER && to !in w.drivers
  }

  lemma RateSteps(w: World, ride: Id, from: Id, to: Id, score: nat)
    requires RatableScene(w, ride, from, to) && 1 <= score <= 5
    ensures var w1 := AddRating(w, Rating(ride, from, to, score));
            StepTask(w, RateRead(ride, from, score), NOTHING) == (w, RateExists(ride, from, to, score))
            && StepTask(w, RateExists(ride, from, to, score), NOTHING) == (w, RateInsert(ride, from, to, score))
            && StepTask(w, RateInsert(ride, from, to, score), NOTHING) == (w1, RateDriver(to, score))
            && StepTask(w1, RateDriver(to, score), NOTHING) == (w1, RateUser(to, score))
            && StepTask(w1, RateUser(to, score), NOTHING)
               == (w1, RateUserSave(Serial.RatedUser(w.users[to], score)))
  {
    hide StepTask, RatableScene, AddRating;
    RateReads(w, ride, from, to, score);
    ToRidersOnly(w, ride, from, to, score);
    RateEnds(AddRating(w, Rating(ride, from, to, score)), to, score);
  }

  lemma RateReads(w: World, ride: Id, from: Id, to: Id, score: nat)
    requires RatableScene(w, ride, from, to) && 1 <= score <= 5
    ensures StepTask(w, RateRead(ride, from, score), NOTHING) == (w, RateExists(ride, from, to, score))
    ensures StepTask(w, RateExists(ride, from, to, score), NOTHING) == (w, RateInsert(ride, from, to, score))
    ensures StepTask(w, RateInsert(ride, from, to, score), NOTHING)
            == (AddRating(w, Rating(ride, from, to, score)), RateDriver(to, score))
  {
    hide HasRated, Badged, SerialRides.Keyed, AddRating;
  }

  lemma ToRidersOnly(w: World, ride: Id, from: Id, to: Id, score: nat)
    requires RatableScene(w, ride, from, to)
    ensures var w1 := AddRating(w, Rating(ride, from, to, score));
            to !in w1.drivers && to in w1.users && w1.users == w.users
  {
    hide HasRated, Badged, SerialRides.Keyed;
  }

  lemma RateEnds(w: World, to: Id, score: nat)
    requires to !in w.drivers && to in w.users
    ensures StepTask(w, RateDriver(to, score), NOTHING) == (w, RateUser(to, score))
    ensures StepTask(w, RateUser(to, score), NOTHING) == (w, RateUserSave(Serial.RatedUser(w.users[to], score)))
  {
    hide Serial.RatedUser;
  }

  lemma RatersOutside(ride: Id, from: Id, to: Id, score: nat)
    ensures Outside(RateRead(ride, from, score)) && Outside(RateExists(ride, from, to, score))
    ensures Outside(RateInsert(ride, from, to, score)) && Outside(RateDriver(to, score)) && Outside(RateUser(to, score))
  {
  }

  lemma RateAdmitted(c: Config, ride: Id, from: Id, score: nat) returns (call: Call)
    requires Badged(c.w) && from in c.w.users
    ensures Exec(c, [Spawn(call)]) == With(c, c.w, RateRead(ride, from, score))
  {
    call := CallRate(Token(c.w.users[from].username, RIDER), from, ride, score);
    OneAction(c, Spawn(call));
  }

  /** rate stopped before its last save. */
  lemma RateHalfway(c: Config, ride: Id, from: Id, to: Id, score: nat) returns (more: seq<Action>)
    requires RatableScene(c.w, ride, from, to) && 1 <= score <= 5
    ensures Exec(c, more) == With(c, AddRating(c.w, Rating(ride, from, to, score)),
                                  RateUserSave(Serial.RatedUser(c.w.users[to], score)))
  {
    hide Exec, StepTask, Outside, With, Badged, AddRating, Serial.RatedUser, HasRated;
    var step, w := Step(|c.tasks|, NOTHING), AddRating(c.w, Rating(ride, from, to, score));
    var call := RateAdmitted(c, ride, from, score);
    RateSteps(c.w, ride, from, to, score);
    RatersOutside(ride, from, to, score);
    StepLast(c, c.w, RateRead(ride, from, score), c.w, RateExists(ride, from, to, score));
    StepLast(c, c.w, RateExists(ride, from, to, score), c.w, RateInsert(ride, from, to, score));
    StepLast(c, c.w, RateInsert(ride, from, to, score), w, RateDriver(to, score));
    StepLast(c, w, RateDriver(to, score), w, RateUser(to, score));
    StepLast(c, w, RateUser(to, score), w, RateUserSave(Serial.RatedUser(c.w.users[to], score)));
    more := [Spawn(call)] + [step] + [step] + [step] + [step] + [step];
    ExecConcat(c, [Spawn(call)], [step]);
    ExecConcat(c, [Spawn(call)] + [step], [step]);
    ExecConcat(c, [Spawn(call)] + [step] + [step], [step]);
    ExecConcat(c, [Spawn(call)] + [step] + [step] + [step], [step]);
    ExecConcat(c, [Spawn(call)] + [step] + [step] + [step] + [step], [step]);
  }

  lemma RegisteredScene(w: World, ride: Id, from: Id, to: Id, score: nat)
    requires RatableScene(w, ride, from, to)
    ensures var w1 := AddRating(w, Rating(ride, from, to, score)); var register := Serial.DoRegisterDriver(to, "", "");
            Badged(w1) && w1.users == w.users && Serial.Possible(w1, register)
            && (var w2 := Serial.Serve(w1, register).0;
                to in w2.users && w2.users[to].role == DRIVER && to in w2.drivers
                && w2.users[to].username == w.users[to].username)
  {
    hide HasRated;
  }

  lemma DemotingStep(c: Config, n: nat)
    requires n < |c.tasks| && c.tasks[n].RateUserSave?
    ensures var c' := Exec(c, [Step(n, NOTHING)]); var account := c.tasks[n].account;
            account.id in c'.w.users && c'.w.users[account.id] == account && c'.w.drivers == c.w.drivers
  {
    hide StepTask, Critical;
    OneAction(c, Step(n, NOTHING));
    UserSaved(c.w, c.tasks[n]);
  }

  lemma UserSaved(w: World, t: Task)
    requires t.RateUserSave?
    ensures var w' := StepTask(w, t, NOTHING).0;
            w'.users == w.users[t.account.id := t.account] && w'.drivers == w.drivers
  {
    hide StepRate;
    RateFrame(w, t);
  }

  /** A profile, but the role of a rider: the user is let in to drive by no new token, and not
      let register again. */
  predicate ShutOut(w: World, u: Id) {
    && u in w.users && w.users[u].role == RIDER && u in w.drivers
    && StepTask(w, LoginRead(u), NOTHING).1 == Issue(w.users[u].username, RIDER)
    && StepTask(w, SwitchRead(u), NOTHING).1 == Done(Refused(403))
    && (w.users[u].id == u ==>
          StepTask(w, RegisterCheck(w.users[u], "", ""), NOTHING).1 == Done(Refused(409)))
  }

  lemma ProfileWithoutRole(w: World, u: Id)
    requires u in w.users && w.users[u].role == RIDER && u in w.drivers
    ensures ShutOut(w, u)
  {
  }

  /** The rated user registers as a driver before rate saves its row. */
  lemma RegisterWithinRate(c: Config, ride: Id, from: Id, to: Id, score: nat)
    returns (during: seq<Action>, more: seq<Action>)
    requires RatableScene(c.w, ride, from, to) && 1 <= score <= 5
    ensures to in Exec(c, during).w.users && Exec(c, during).w.users[to].role == DRIVER
    ensures ShutOut(Exec(c, during + more).w, to)
  {
    hide Exec, Serial.Serve, Serial.Possible, Admit, CallOf, FirstTask, Badged, AddRating, HasRated, ShutOut;
    var register := Serial.DoRegisterDriver(to, "", "");
    RegisteredScene(c.w, ride, from, to, score);
    var a1 := RateHalfway(c, ride, from, to, score);
    var c1 := Exec(c, a1);
    Admitted(c1.w, register);
    var a2 := SerialCallIsARun(c1, register, CallOf(c1.w, register), NOTHING);
    var c2 := Exec(c1, a2);
    during, more := a1 + a2, [Step(|c.tasks|, NOTHING)];
    assert c2.tasks[|c.tasks|] == RateUserSave(Serial.RatedUser(c.w.users[to], score));
    DemotingStep(c2, |c.tasks|);
    ProfileWithoutRole(Exec(c2, more).w, to);
    ExecConcat(c, a1, a2);
    ExecConcat(c, during, more);
  }

  // ---------- a completed ride to rate, from the empty service on ----------

  const DoneRun: seq<Serial.Command> := MatchedRun + [Serial.DoStart(0, 11)] + [Serial.DoComplete(0, 11)]

  lemma UnratedYet(run: seq<Serial.Command>, ride: Id, from: Id)
    requires ride in Serial.After(run).rides ==> Serial.After(run).rides[ride].status != COMPLETED
    ensures !HasRated(Serial.After(run).ratings, ride, from)
  {
    hide Serial.After;
    SerialRatings.RunsRateSoundly(run);
    var w := Serial.After(run);
    forall i | 0 <= i < |w.ratings|
      ensures w.ratings[i].rideId != ride
    {
      assert SerialRatings.JudgedOne(w.ratings[i], w.rides, w.users);
    }
  }

  lemma MatchedAgain()
    ensures SerialWitnesses.Scene(Serial.After(MatchedRun), false, map[11 := SerialWitnesses.Look(1, Some(0), MATCHED)])
  {
    hide Serial.After;
    SerialWitnesses.AfterOpening();
    SerialWitnesses.Requested(SerialWitnesses.Opening, true, map[], 1, 1);
    SerialWitnesses.Accepted0(SerialWitnesses.Opening + [Serial.DoRequest(1, SerialWitnesses.Hop(1), [], 11)],
                              map[11 := SerialWitnesses.Look(1, None, REQUESTED)], 11);
  }

  /** Driver 0 may rate rider 1. */
  lemma DoneIsRatable()
    ensures RatableScene(Serial.After(DoneRun), 11, 0, 1)
  {
    hide Serial.After, Serial.Serve, Serial.Possible, Badged, HasRated;
    MatchedAgain();
    var w := Serial.After(MatchedRun);
    RunsBadged(MatchedRun);
    SerialRides.RunsAreSound(MatchedRun);
    StartedThenCompleted(w, 11, 0);
    SerialWitnesses.Next(MatchedRun, Serial.DoStart(0, 11));
    SerialWitnesses.Next(MatchedRun + [Serial.DoStart(0, 11)], Serial.DoComplete(0, 11));
    UnratedYet(MatchedRun, 11, 0);
    RunsBadged(DoneRun);
    SerialRides.RunsAreSound(DoneRun);
  }

  /** Registration as a driver need not last: a rating that read the user's row before, and
      saves it after, gives the row its old role back, and the driver is shut out. */
  lemma DriverRoleLost() returns (actions: seq<Action>, more: seq<Action>)
    ensures 1 in Exec(Start, actions).w.users && Exec(Start, actions).w.users[1].role == DRIVER
    ensures ShutOut(Exec(Start, actions + more).w, 1)
  {
    hide Exec, RatableScene, ShutOut;
    DoneIsRatable();
    var first := SerialRunsAreMachineRuns(DoneRun);
    var during, rest := RegisterWithinRate(Exec(Start, first), 11, 0, 1, 5);
    actions, more := first + during, rest;
    ExecConcat(Start, first, during);
    ExecConcat(Start, first, during + rest);
    assert first + during + rest == first + (during + rest);
  }

  // ---------- a rating that is not counted ----------

  /** Driver registration from a row read at any time. */
  lemma StaleRegisterEnds(w: World, account: User)
    requires account.id !in w.drivers
    ensures var row, u := Serial.NewDriver(account.id, "", ""), account.(role := DRIVER);
            Alone(w, RegisterCheck(account, "", ""), NOTHING)
            == (IssueToken(SaveUser(SaveDriver(w, row), u), u.username, DRIVER), Done(Finished))
  {
    hide Alone, SaveDriver, SaveUser, IssueToken;
    var row, u := Serial.NewDriver(account.id, "", ""), account.(role := DRIVER);
    OneStep(w, RegisterCheck(account, "", ""), NOTHING);
    SaveAlone(w, row, ToUpgrade(u), NOTHING);
    UpgradeAlone(SaveDriver(w, row), u, NOTHING);
  }

  lemma StaleRegisterAlone(w: World, account: User)
    requires account.id !in w.drivers
    ensures var (w', t') := Alone(w, RegisterCheck(account, "", ""), NOTHING);
            t'.Done? && w'.users == w.users[account.id := account.(role := DRIVER)] && w'.ratings == w.ratings
  {
    hide Alone, SaveDriver, SaveUser, IssueToken;
    StaleRegisterEnds(w, account);
    UpgradedUsers(w, Serial.NewDriver(account.id, "", ""), account.(role := DRIVER));
  }

  lemma UpgradedUsers(w: World, row: Driver, u: User)
    ensures var w' := IssueToken(SaveUser(SaveDriver(w, row), u), u.username, DRIVER);
            w'.users == w.users[u.id := u] && w'.ratings == w.ratings
  {
    hide SaveDriver, SaveUser, IssueToken, SameRideTables, SameDriverTables;
    SaveUserFrame(SaveDriver(w, row), u);
    IssueFrame(SaveUser(SaveDriver(w, row), u), u.username, DRIVER);
    RegisteredUsers(w, row);
  }

  lemma RegisteredUsers(w: World, row: Driver)
    ensures SaveDriver(w, row).users == w.users && SaveDriver(w, row).ratings == w.ratings
  {
  }

  lemma RegisterAdmitted(c: Config, u: Id) returns (call: Call)
    requires Badged(c.w) && u in c.w.users
    ensures Exec(c, [Spawn(call)]) == With(c, c.w, RegisterCheck(c.w.users[u], "", ""))
  {
    call := CallRegisterDriver(Token(c.w.users[u].username, RIDER), u, "", "");
    OneAction(c, Spawn(call));
  }

  lemma RatedOnce(w: World, ride: Id, from: Id, to: Id)
    requires RatableScene(w, ride, from, to)
    ensures var rate := Serial.DoRate(from, ride, 5);
            Serial.Possible(w, rate)
            && (var w1 := Serial.Serve(w, rate).0;
                to !in w1.drivers && w1.ratings == w.ratings + [Rating(ride, from, to, 5)] && to in w1.users)
  {
    hide HasRated, Serial.ScoreDriver, Serial.ScoreUser, AddRating, AddScore;
    SerialRides.RateEffect(w, Rating(ride, from, to, 5));
  }

  /** A whole rating between the reading of a user's row and its save by driver registration. */
  lemma RateWithinRegister(c: Config, ride: Id, from: Id, to: Id) returns (more: seq<Action>)
    requires RatableScene(c.w, ride, from, to) && Quiescent(c)
    requires c.w.users[to].ratingCount == SerialRatings.CountTo(c.w.ratings, to)
    ensures var c' := Exec(c, more);
            (forall i :: 0 <= i < |c'.tasks| ==> c'.tasks[i].Done?) && to in c'.w.users
            && c'.w.users[to].ratingCount + 1 == SerialRatings.CountTo(c'.w.ratings, to)
  {
    hide Exec, Serial.Serve, Serial.Possible, Admit, CallOf, FirstTask, Badged, Alone, HasRated, Critical;
    hide SerialRatings.CountTo;
    var n, rate := |c.tasks|, Serial.DoRate(from, ride, 5);
    RatedOnce(c.w, ride, from, to);
    var call := RegisterAdmitted(c, to);
    var c1 := Exec(c, [Spawn(call)]);
    Admitted(c1.w, rate);
    var a2 := SerialCallIsARun(c1, rate, CallOf(c1.w, rate), NOTHING);
    var c2 := Exec(c1, a2);
    assert c2.tasks[n] == RegisterCheck(c.w.users[to], "", "");
    var a3 := AloneIsARun(c2, n, NOTHING);
    StaleRegisterAlone(c2.w, c.w.users[to]);
    MachineUsers.CountAppend(c.w.ratings, Rating(ride, from, to, 5), to);
    more := [Spawn(call)] + a2 + a3;
    ExecConcat(c, [Spawn(call)], a2);
    ExecConcat(c, [Spawn(call)] + a2, a3);
  }

  /** A user's counter is the number of ratings to the user after every serial run
      (SerialRatings.CountersAgree), but not after every interleaving: all calls done, one
      rating in the table was never counted. */
  lemma RatingNotCounted() returns (actions: seq<Action>)
    ensures var c := Exec(Start, actions);
            (forall i :: 0 <= i < |c.tasks| ==> c.tasks[i].Done?) && 1 in c.w.users
            && c.w.users[1].ratingCount + 1 == SerialRatings.CountTo(c.w.ratings, 1)
  {
    hide Exec, Serial.After, Badged, HasRated, SerialRatings.CountTo, Quiescent;
    DoneIsRatable();
    SerialRatings.CountersAgree(DoneRun, 1);
    var first := SerialRunsAreMachineRuns(DoneRun);
    var rest := RateWithinRegister(Exec(Start, first), 11, 0, 1);
    actions := first + rest;
    ExecConcat(Start, first, rest);
  }
}

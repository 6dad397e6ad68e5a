/** What every serial run keeps about rides and drivers, and exactly which runs keep a
    driver to one ride at a time. */
module SerialRides {
  import opened Models
  import opened Surge
  import opened Fares
  import opened Pricing
  import opened Dispatch
  import opened RatingMath
  import opened Worlds
  import opened Serial
  import opened RideRows
  import Contracts
  import SerialCalls

  // ---------- invariants ----------

  /** Keys are the rows' own ids; riders are users and drivers are profiled users. */
  predicate Keyed(rides: map<Id, Ride>, drivers: map<Id, Driver>, users: map<Id, User>) {
    && (forall id :: id in rides ==> rides[id].id == id && rides[id].rider in users)
    && (forall id :: id in rides && rides[id].driver.Some? ==> rides[id].driver.value in drivers)
    && (forall d :: d in drivers ==> drivers[d].userId == d && d in users)
    && (forall u :: u in users ==> users[u].id == u)
  }

  /** The Redis set and the Postgres column name the same available drivers. */
  ghost predicate Mirrored(drivers: map<Id, Driver>, available: set<Id>) {
    forall d :: d in available <==> d in drivers && drivers[d].isAvailable
  }

  predicate RowsConsistent(rides: map<Id, Ride>) {
    forall id :: id in rides ==> Consistent(rides[id])
  }

  predicate ActiveFor(rides: map<Id, Ride>, rider: Id, ride: Id) {
    ride in rides && rides[ride].rider == rider && Active(rides[ride].status)
  }

  ghost predicate OneActivePerRider(rides: map<Id, Ride>) {
    forall rider, a, b :: ActiveFor(rides, rider, a) && ActiveFor(rides, rider, b) ==> a == b
  }

  ghost predicate Sound(w: World) {
    && Keyed(w.rides, w.drivers, w.users)
    && Mirrored(w.drivers, w.available)
    && RowsConsistent(w.rides)
    && OneActivePerRider(w.rides)
  }

  // ---------- the two kinds of row writes ----------

  lemma SavedDriver(w: World, d: Driver)
    requires Sound(w) && d.userId in w.users
    ensures Sound(SaveDriver(w, d))
  {
  }

  lemma SavedTransition(w: World, r: Ride)
    requires Sound(w) && r.id in w.rides && Transition(w.rides[r.id], r)
    requires r.driver.Some? ==> r.driver.value in w.drivers
    ensures Sound(SaveRide(w, r))
  {
    TransitionKeepsRow(w.rides[r.id], r);
    var rides' := SaveRide(w, r).rides;
    assert forall rider, a :: ActiveFor(rides', rider, a) ==> ActiveFor(w.rides, rider, a);
  }

  /** A request touches at most one row, a new one, and nothing of the drivers. */
  lemma RequestEffect(w: World, rider: Id, trip: Trip, reply: seq<Hit>, uuid: Id) returns (r: Option<Ride>)
    requires ValidTrip(trip)
    ensures var w' := RequestRide(w, rider, trip, reply, uuid).0;
            w'.drivers == w.drivers && w'.users == w.users && w'.available == w.available
            && w'.ratings == w.ratings && w'.born == w.born && w'.tokens == w.tokens
            && w'.rides == (if r.Some? then w.rides[uuid := r.value] else w.rides)
    ensures r.Some? ==> !HasActiveRide(w, rider) && Consistent(r.value) && r.value.status == REQUESTED
                        && r.value.id == uuid && r.value.rider == rider
  {
    hide ComputeMultiplier, FareCents, Lookup, Live, KeepAvailable, PendingNear, HasActiveRide,
      ServeSurge, SaveNew, PublishRequested;
    var (w', answer) := RequestRide(w, rider, trip, reply, uuid);
    r := if answer.Granted? then Some(answer.ride) else None;
    if !HasActiveRide(w, rider) {
      var pending, free := PendingNear(w, trip.pickup), |KeepAvailable(reply, w.available)|;
      var (w1, m) := ServeSurge(w, trip.cell, pending, free);
      ServeSurgeEffect(w, trip.cell, pending, free);
      if m.Some? {
        var q := Quotation(trip, m.value, w.now);
        SaveNewEffect(w1, NewRide(uuid, rider, trip, FareCents(trip.distance, m.value), w.now), q);
      }
    }
  }

  lemma ServeSurgeEffect(w: World, cell: Cell, pending: nat, free: nat)
    ensures var w' := ServeSurge(w, cell, pending, free).0;
            w'.rides == w.rides && w'.drivers == w.drivers && w'.users == w.users && w'.available == w.available
            && w'.ratings == w.ratings && w'.born == w.born && w'.tokens == w.tokens
  {
    hide ComputeMultiplier, Lookup, Live, StoreSurge;
    var m := ComputeMultiplier(pending, free);
    StoreSurgeEffect(w, cell, pending, free, m);
  }

  lemma StoreSurgeEffect(w: World, cell: Cell, pending: nat, free: nat, m: Decimal)
    ensures var w' := StoreSurge(w, cell, pending, free, m);
            w'.rides == w.rides && w'.drivers == w.drivers && w'.users == w.users && w'.available == w.available
            && w'.ratings == w.ratings && w'.born == w.born && w'.tokens == w.tokens
  {
    hide Put;
  }

  lemma SaveNewEffect(w: World, r: Ride, q: Quotation)
    ensures var w' := PublishRequested(SaveNew(w, r, q), r.id);
            w'.rides == w.rides[r.id := r] && w'.drivers == w.drivers && w'.users == w.users
            && w'.available == w.available && w'.ratings == w.ratings && w'.born == w.born && w'.tokens == w.tokens
  {
  }

  lemma AddRatingEffect(w: World, r: Rating)
    ensures var w' := AddRating(w, r);
            w'.ratings == w.ratings + [r] && w'.rides == w.rides && w'.users == w.users && w'.drivers == w.drivers
            && w'.available == w.available && w'.born == w.born && w'.tokens == w.tokens
  {
  }

  lemma SaveDriverEffect(w: World, d: Driver)
    requires d.userId in w.drivers
    ensures var w' := SaveDriver(w, d);
            w'.drivers == w.drivers[d.userId := d] && w'.rides == w.rides && w'.users == w.users
            && w'.ratings == w.ratings && w'.born == w.born && w'.tokens == w.tokens
            && w'.available == if d.isAvailable then w.available + {d.userId} else w.available - {d.userId}
  {
  }

  lemma SaveUserEffect(w: World, u: User)
    ensures var w' := SaveUser(w, u);
            w'.users == w.users[u.id := u] && w'.rides == w.rides && w'.drivers == w.drivers
            && w'.ratings == w.ratings && w'.born == w.born && w'.tokens == w.tokens && w'.available == w.available
  {
  }

  /** What a rating that passes all checks does to the tables: the rating is added, and the
      rated user's columns are updated in both rows, the driver's if there is one. */
  lemma RateEffect(w: World, r: Rating)
    requires Keyed(w.rides, w.drivers, w.users)
    ensures var to := r.toUser;
            var w' := ScoreUser(ScoreDriver(AddRating(w, r), to, r.score), to, r.score);
            w'.ratings == w.ratings + [r] && w'.rides == w.rides && w'.born == w.born && w'.tokens == w.tokens
            && w'.users == (if to in w.users then w.users[to := RatedUser(w.users[to], r.score)] else w.users)
            && w'.drivers == (if to in w.drivers then w.drivers[to := RatedDriver(w.drivers[to], r.score)]
                              else w.drivers)
            && w'.available == (if to !in w.drivers then w.available
                                else if w.drivers[to].isAvailable then w.available + {to} else w.available - {to})
  {
    hide AddScore, SaveDriver, SaveUser, AddRating;
    var to, w1 := r.toUser, AddRating(w, r);
    AddRatingEffect(w, r);
    if to in w1.drivers {
      SaveDriverEffect(w1, RatedDriver(w1.drivers[to], r.score));
    }
    var w2 := ScoreDriver(w1, to, r.score);
    if to in w2.users {
      SaveUserEffect(w2, RatedUser(w2.users[to], r.score));
    }
  }

  // ---------- one command ----------

  lemma RequestSound(w: World, rider: Id, trip: Trip, reply: seq<Hit>, uuid: Id)
    requires Sound(w) && rider in w.users && ValidTrip(trip) && uuid !in w.rides
    ensures Sound(RequestRide(w, rider, trip, reply, uuid).0)
  {
    hide RequestRide;
    var r := RequestEffect(w, rider, trip, reply, uuid);
    if r.Some? {
      AddedRow(w.rides, rider, r.value);
      assert forall a :: ActiveFor(w.rides, rider, a) ==> HasActiveRide(w, rider);
    }
  }

  lemma AddedRow(rides: map<Id, Ride>, rider: Id, r: Ride)
    requires OneActivePerRider(rides) && r.rider == rider && r.id !in rides
    ensures (forall a :: !ActiveFor(rides, rider, a)) ==> OneActivePerRider(rides[r.id := r])
  {
    var rides' := rides[r.id := r];
    assert forall x, a :: ActiveFor(rides', x, a) ==> ActiveFor(rides, x, a) || (x == rider && a == r.id);
  }

  lemma AcceptSound(w: World, ride: Id, driver: Id)
    requires Sound(w)
    ensures Sound(AcceptRide(w, ride, driver).0)
  {
    if AcceptRide(w, ride, driver).1.Granted? {
      var d := w.drivers[driver].(isAvailable := false);
      SavedDriver(w, d);
      SavedTransition(SaveDriver(w, d), Matched(w.rides[ride], driver));
    }
  }

  lemma CompleteSound(w: World, ride: Id, driver: Id)
    requires Sound(w)
    ensures Sound(CompleteRide(w, ride, driver).0)
  {
    if ride in w.rides && w.rides[ride].status == IN_PROGRESS && w.rides[ride].driver == Some(driver) {
      var w1 := SaveRide(w, Completed(w.rides[ride], w.now));
      SavedTransition(w, Completed(w.rides[ride], w.now));
      SavedDriver(w1, w1.drivers[driver].(isAvailable := true));
    }
  }

  lemma CancelSound(w: World, ride: Id, user: Id)
    requires Sound(w)
    ensures Sound(CancelRide(w, ride, user).0)
  {
    if CancelRide(w, ride, user).1.Granted? {
      var r := w.rides[ride];
      if r.driver.Some? {
        var d := w.drivers[r.driver.value].(isAvailable := true);
        SavedDriver(w, d);
        SavedTransition(SaveDriver(w, d), Cancelled(r));
      } else {
        SavedTransition(w, Cancelled(r));
      }
    }
  }

  lemma RateSound(w: World, ride: Id, from: Id, score: int)
    requires Sound(w)
    ensures Sound(Rate(w, ride, from, score).0)
  {
    hide AddScore, HasRated, ScoreDriver, ScoreUser, AddRating;
    if Rate(w, ride, from, score).1 == Finished {
      RateEffect(w, Rating(ride, from, Ratee(w.rides[ride], from).value, score));
    }
  }

  lemma RegisterSound(w: World, user: Id, vehicle: string, plate: string)
    requires Sound(w) && user in w.users
    ensures Sound(RegisterDriver(w, user, vehicle, plate).0)
  {
    hide SaveDriver;
    if user !in w.drivers {
      var row := NewDriver(user, vehicle, plate);
      SavedDriver(w, row);
      KeptUsers(w, row);
    }
  }

  lemma KeptUsers(w: World, d: Driver)
    ensures var w' := SaveDriver(w, d); w'.users == w.users && w'.rides == w.rides
  {
  }

  lemma OnlineSound(w: World, user: Id, at: Point)
    requires Sound(w)
    ensures Sound(GoOnline(w, user, at).0) && Sound(GoOffline(w, user).0)
  {
    hide SaveDriver;
    if user in w.drivers {
      SavedDriver(w.(located := w.located[user := at]), w.drivers[user].(isAvailable := true));
      SavedDriver(w.(located := w.located - {user}), w.drivers[user].(isAvailable := false));
    }
  }

  lemma LocationSound(w: World, user: Id, at: Point, held: Option<Id>)
    requires Sound(w) && (user in w.drivers ==> FirstHeld(w, user, held))
    ensures Sound(UpdateLocation(w, user, at, held).0)
  {
  }

  lemma StartSound(w: World, ride: Id, driver: Id)
    requires Sound(w)
    ensures Sound(StartRide(w, ride, driver).0)
  {
    hide SaveRide;
    if StartRide(w, ride, driver).1.Granted? {
      SavedTransition(w, Started(w.rides[ride]));
    }
  }

  lemma SignUpSound(w: World, username: string, uuid: Id)
    requires Sound(w) && uuid !in w.users
    ensures Sound(SignUp(w, username, uuid).0)
  {
    hide UsernameTaken;
  }

  lemma ServeSound(w: World, c: Command)
    requires Sound(w) && Possible(w, c)
    ensures Sound(Serve(w, c).0)
  {
    hide SignUp, RegisterDriver, GoOnline, GoOffline, UpdateLocation, RequestRide, AcceptRide, StartRide,
      CompleteRide, CancelRide, Rate, Keyed, Mirrored, RowsConsistent, OneActivePerRider;
    match c
    case DoSignUp(username, uuid) => SignUpSound(w, username, uuid);
    case DoRegisterDriver(user, vehicle, plate) => RegisterSound(w, user, vehicle, plate);
    case DoOnline(user, at) => OnlineSound(w, user, at);
    case DoOffline(user) => OnlineSound(w, user, Point(0.0, 0.0));
    case DoLocation(user, at, held) => LocationSound(w, user, at, held);
    case DoRequest(user, trip, reply, uuid) => RequestSound(w, user, trip, reply, uuid);
    case DoAccept(user, ride) => AcceptSound(w, ride, user);
    case DoStart(user, ride) => StartSound(w, ride, user);
    case DoComplete(user, ride) => CompleteSound(w, ride, user);
    case DoCancel(user, ride) => CancelSound(w, ride, user);
    case DoRate(user, ride, score) => RateSound(w, ride, user, score);
    case DoWait(_) =>
  }

  /** Every serial run, with no restriction: rows are consistent, each rider has at most one
      active ride, and the Redis set is exactly the drivers whose row says available. */
  lemma {:induction false} RunsAreSound(run: seq<Command>)
    ensures Sound(After(run))
  {
    if run != [] {
      RunsAreSound(run[..|run| - 1]);
      var w := After(run[..|run| - 1]);
      if Possible(w, run[|run| - 1]) {
        ServeSound(w, run[|run| - 1]);
      }
    }
  }

  /** Nearby search over any serial run: nearest first, the drivers whose rows say available
      among the 20 nearest, and all of them in range when at most 20 are. */
  lemma NearbyAgreesWithRows(run: seq<Command>, distances: map<Id, real>, radius: real, reply: seq<Hit>)
    requires GeoReply(distances, radius, reply)
    ensures var w := After(run); var found := KeepAvailable(reply, w.available);
            Ascending(found) && NoRepeats(found) && |found| <= 20
            && (forall d :: InReply(found, d) <==>
                  InReply(reply, d) && d in w.drivers && w.drivers[d].isAvailable)
            && (|InRange(distances, radius)| <= 20 ==>
                  forall d :: InReply(found, d) <==>
                    d in InRange(distances, radius) && d in w.drivers && w.drivers[d].isAvailable)
  {
    RunsAreSound(run);
    NearbySearch(distances, radius, reply, After(run).available);
  }

  /** What a call that answers with a ride did to the rows: it saved that ride over the
      stored one, and nothing if it gave another answer. */
  predicate SavedAnswer(before: map<Id, Ride>, after: map<Id, Ride>, ride: Id, answer: Outcome) {
    if answer.Granted? then
      ride in before && answer.ride.id == ride && after == before[ride := answer.ride]
      && Transition(before[ride], answer.ride)
    else after == before
  }

  lemma AcceptSaves(w: World, ride: Id, driver: Id)
    requires Keyed(w.rides, w.drivers, w.users)
    ensures SavedAnswer(w.rides, AcceptRide(w, ride, driver).0.rides, ride, AcceptRide(w, ride, driver).1)
  {
    hide Transition;
    if ride in w.rides {
      SavesTransition(w.rides[ride], driver, w.now);
    }
  }

  lemma StartSaves(w: World, ride: Id, driver: Id)
    requires Keyed(w.rides, w.drivers, w.users)
    ensures SavedAnswer(w.rides, StartRide(w, ride, driver).0.rides, ride, StartRide(w, ride, driver).1)
  {
    hide Transition;
    if ride in w.rides {
      SavesTransition(w.rides[ride], driver, w.now);
    }
  }

  lemma CompleteSaves(w: World, ride: Id, driver: Id)
    requires Keyed(w.rides, w.drivers, w.users)
    ensures SavedAnswer(w.rides, CompleteRide(w, ride, driver).0.rides, ride, CompleteRide(w, ride, driver).1)
  {
    hide Transition;
    if ride in w.rides {
      SavesTransition(w.rides[ride], driver, w.now);
    }
  }

  lemma CancelSaves(w: World, ride: Id, user: Id)
    requires Keyed(w.rides, w.drivers, w.users)
    ensures SavedAnswer(w.rides, CancelRide(w, ride, user).0.rides, ride, CancelRide(w, ride, user).1)
  {
    hide Transition;
    if ride in w.rides {
      SavesTransition(w.rides[ride], user, w.now);
    }
  }

  /** One command saves at most one ride row: a new one, or a transition of the stored one. */
  lemma SavesOneRow(w: World, c: Command) returns (r: Option<Ride>)
    requires Sound(w) && Possible(w, c)
    ensures Serve(w, c).0.rides == if r.Some? then w.rides[r.value.id := r.value] else w.rides
    ensures r.Some? && r.value.id in w.rides ==> Transition(w.rides[r.value.id], r.value)
  {
    r := None;
    if c.DoRequest? {
      hide RequestRide;
      r := RequestEffect(w, c.user, c.trip, c.reply, c.uuid);
    } else if c.DoAccept? || c.DoStart? || c.DoComplete? || c.DoCancel? {
      hide AcceptRide, StartRide, CompleteRide, CancelRide, Transition;
      AcceptSaves(w, c.ride, c.user);
      StartSaves(w, c.ride, c.user);
      CompleteSaves(w, c.ride, c.user);
      CancelSaves(w, c.ride, c.user);
      var answer := Serve(w, c).1;
      if answer.Granted? {
        r := Some(answer.ride);
      }
    } else {
      SavesNoRow(w, c);
    }
  }

  /** Matching a waiting ride, or cancelling one, takes exactly it off the demand around its own
      pickup, which the next quote there is computed from. */
  lemma TakenOffDemand(w: World, ride: Id, user: Id)
    requires Keyed(w.rides, w.drivers, w.users) && ride in w.rides && w.rides[ride].status == REQUESTED
    ensures AcceptRide(w, ride, user).1.Granted? ==>
              var at := w.rides[ride].pickup;
              Contracts.Demand(AcceptRide(w, ride, user).0, at) == Contracts.Demand(w, at) - 1
    ensures CancelRide(w, ride, user).1.Granted? ==>
              var at := w.rides[ride].pickup;
              Contracts.Demand(CancelRide(w, ride, user).0, at) == Contracts.Demand(w, at) - 1
  {
    hide AcceptRide, CancelRide, Contracts.Demand, SaveRide;
    AcceptSaves(w, ride, user);
    CancelSaves(w, ride, user);
    if AcceptRide(w, ride, user).1.Granted? {
      OffDemand(w, AcceptRide(w, ride, user).0, AcceptRide(w, ride, user).1.ride);
    }
    if CancelRide(w, ride, user).1.Granted? {
      OffDemand(w, CancelRide(w, ride, user).0, CancelRide(w, ride, user).1.ride);
    }
  }

  lemma OffDemand(w: World, w': World, r: Ride)
    requires r.id in w.rides && w.rides[r.id].status == REQUESTED && r.status != REQUESTED
    requires w'.rides == w.rides[r.id := r]
    ensures var at := w.rides[r.id].pickup; Contracts.Demand(w', at) == Contracts.Demand(w, at) - 1
  {
    hide Contracts.Demand;
    var at := w.rides[r.id].pickup;
    DemandFalls(w, r, at);
    SerialCalls.DemandCounted(w, at);
    SerialCalls.DemandCounted(w', at);
    assert PendingNear(w', at) == PendingNear(SaveRide(w, r), at);
  }

  lemma SavesNoRow(w: World, c: Command)
    requires Possible(w, c) && Keyed(w.rides, w.drivers, w.users)
    requires !c.DoRequest? && !c.DoAccept? && !c.DoStart? && !c.DoComplete? && !c.DoCancel?
    ensures Serve(w, c).0.rides == w.rides
  {
    hide SignUp, RegisterDriver, GoOnline, GoOffline, UpdateLocation, RequestRide, AcceptRide, StartRide,
      CompleteRide, CancelRide, Rate;
    match c
    case DoSignUp(username, uuid) => SignUpSavesNoRow(w, username, uuid);
    case DoRegisterDriver(user, vehicle, plate) => RegisterSavesNoRow(w, user, vehicle, plate);
    case DoOnline(user, at) => OnlineSavesNoRow(w, user, at);
    case DoOffline(user) => OfflineSavesNoRow(w, user);
    case DoLocation(user, at, held) => LocationSavesNoRow(w, user, at, held);
    case DoRate(user, ride, score) => RateSavesNoRow(w, ride, user, score);
    case DoWait(_) =>
  }

  lemma SignUpSavesNoRow(w: World, username: string, uuid: Id)
    ensures SignUp(w, username, uuid).0.rides == w.rides
  {
    hide UsernameTaken;
  }

  lemma RegisterSavesNoRow(w: World, user: Id, vehicle: string, plate: string)
    requires user in w.users
    ensures RegisterDriver(w, user, vehicle, plate).0.rides == w.rides
  {
    hide SaveDriver;
    KeptUsers(w, NewDriver(user, vehicle, plate));
  }

  lemma OnlineSavesNoRow(w: World, user: Id, at: Point)
    ensures GoOnline(w, user, at).0.rides == w.rides
  {
  }

  lemma OfflineSavesNoRow(w: World, user: Id)
    ensures GoOffline(w, user).0.rides == w.rides
  {
  }

  lemma LocationSavesNoRow(w: World, user: Id, at: Point, held: Option<Id>)
    requires user in w.drivers ==> FirstHeld(w, user, held)
    ensures UpdateLocation(w, user, at, held).0.rides == w.rides
  {
  }

  lemma RateSavesNoRow(w: World, ride: Id, from: Id, score: int)
    requires Keyed(w.rides, w.drivers, w.users)
    ensures Rate(w, ride, from, score).0.rides == w.rides
  {
    hide HasRated, ScoreDriver, ScoreUser, AddRating, AddScore;
    if Rate(w, ride, from, score).1 == Finished {
      RateEffect(w, Rating(ride, from, Ratee(w.rides[ride], from).value, score));
    }
  }

  /** A completed ride's row is never written again in a serial run. */
  lemma CompletedIsFinal(w: World, c: Command, ride: Id)
    requires Sound(w) && Possible(w, c) && ride in w.rides && w.rides[ride].status == COMPLETED
    ensures ride in Serve(w, c).0.rides && Serve(w, c).0.rides[ride] == w.rides[ride]
  {
    var r := SavesOneRow(w, c);
    if r.Some? && r.value.id == ride {
      TransitionKeepsRow(w.rides[ride], r.value);
    }
  }

  // ---------- driver exclusivity ----------

  ghost predicate Idle(rides: map<Id, Ride>, driver: Id) {
    forall ride :: !Holds(rides, driver, ride)
  }

  /** Each driver holds at most one MATCHED or IN_PROGRESS ride, and is unavailable then. */
  ghost predicate Exclusive(rides: map<Id, Ride>, drivers: map<Id, Driver>) {
    && (forall d, a, b :: Holds(rides, d, a) && Holds(rides, d, b) ==> a == b)
    && (forall d, a :: Holds(rides, d, a) ==> d in drivers && !drivers[d].isAvailable)
  }

  /** The two calls that look past the driver's current ride: going online, and cancelling
      once more a ride already cancelled. Nothing else is restricted. */
  ghost predicate Disciplined(w: World, c: Command) {
    match c
    case DoOnline(user, _) => user in w.drivers ==> Idle(w.rides, user)
    case DoCancel(user, ride) =>
      (ride in w.rides && w.rides[ride].status == CANCELLED && w.rides[ride].driver.Some?
       && (user == w.rides[ride].rider || Some(user) == w.rides[ride].driver))
      ==> Idle(w.rides, w.rides[ride].driver.value)
    case _ => true
  }

  /** Marking an idle driver either way, or any driver unavailable, keeps exclusivity. */
  lemma MarkExclusive(rides: map<Id, Ride>, drivers: map<Id, Driver>, d: Id, row: Driver)
    requires Exclusive(rides, drivers) && d in drivers
    requires Idle(rides, d) || !row.isAvailable
    ensures Exclusive(rides, drivers[d := row])
  {
  }

  /** A row write that leaves a ride's driver as busy as before, or less, keeps exclusivity. */
  lemma WriteExclusive(rides: map<Id, Ride>, drivers: map<Id, Driver>, r: Ride)
    requires Exclusive(rides, drivers)
    requires r.driver.Some? && Occupying(r.status) ==> Holds(rides, r.driver.value, r.id)
    ensures Exclusive(rides[r.id := r], drivers)
  {
    var rides' := rides[r.id := r];
    assert forall d, a :: Holds(rides', d, a) ==> Holds(rides, d, a);
  }

  /** Handing a ride to an idle, unavailable driver keeps exclusivity. */
  lemma AssignExclusive(rides: map<Id, Ride>, drivers: map<Id, Driver>, r: Ride, d: Id)
    requires Exclusive(rides, drivers) && r.driver == Some(d)
    requires d in drivers && !drivers[d].isAvailable && Idle(rides, d)
    ensures Exclusive(rides[r.id := r], drivers)
  {
    var rides' := rides[r.id := r];
    forall e, a | Holds(rides', e, a)
      ensures Holds(rides, e, a) || (e == d && a == r.id)
    {
    }
  }

  lemma AcceptExclusive(w: World, ride: Id, driver: Id)
    requires Sound(w) && Exclusive(w.rides, w.drivers)
    ensures var w' := AcceptRide(w, ride, driver).0; Exclusive(w'.rides, w'.drivers)
  {
    if AcceptRide(w, ride, driver).1.Granted? {
      var d := w.drivers[driver].(isAvailable := false);
      assert Idle(w.rides, driver);
      MarkExclusive(w.rides, w.drivers, driver, d);
      AssignExclusive(w.rides, w.drivers[driver := d], Matched(w.rides[ride], driver), driver);
    }
  }

  /** A driver whose one ride ends becomes idle. */
  lemma IdleAfter(rides: map<Id, Ride>, drivers: map<Id, Driver>, d: Id, r: Ride)
    requires Exclusive(rides, drivers) && !Occupying(r.status)
    requires Holds(rides, d, r.id) || Idle(rides, d)
    ensures Idle(rides[r.id := r], d)
  {
    forall a: Id {:trigger Holds(rides[r.id := r], d, a)}
      ensures !Holds(rides[r.id := r], d, a)
    {
      assert Holds(rides[r.id := r], d, a) ==> Holds(rides, d, a) && a != r.id;
    }
  }

  lemma CompleteExclusive(w: World, ride: Id, driver: Id)
    requires Sound(w) && Exclusive(w.rides, w.drivers)
    ensures var w' := CompleteRide(w, ride, driver).0; Exclusive(w'.rides, w'.drivers)
  {
    if ride in w.rides && w.rides[ride].status == IN_PROGRESS && w.rides[ride].driver == Some(driver) {
      var r := Completed(w.rides[ride], w.now);
      WriteExclusive(w.rides, w.drivers, r);
      assert Holds(w.rides, driver, ride);
      IdleAfter(w.rides, w.drivers, driver, r);
      MarkExclusive(w.rides[ride := r], w.drivers, driver, w.drivers[driver].(isAvailable := true));
    }
  }

  /** Freeing a driver with a cancelled row keeps exclusivity exactly when nothing else is held. */
  lemma FreeExclusive(rides: map<Id, Ride>, drivers: map<Id, Driver>, r: Ride, d: Id, row: Driver)
    requires Exclusive(rides, drivers) && r.status == CANCELLED && r.driver == Some(d)
    requires r.id in rides && rides[r.id].driver == Some(d) && rides[r.id].status in {MATCHED, CANCELLED}
    requires d in drivers && row.isAvailable
    ensures Exclusive(rides[r.id := r], drivers[d := row])
            <==> (rides[r.id].status == CANCELLED ==> Idle(rides, d))
  {
    var rides' := rides[r.id := r];
    WriteExclusive(rides, drivers, r);
    if rides[r.id].status == MATCHED {
      assert Holds(rides, d, r.id);
    }
    if rides[r.id].status == MATCHED || Idle(rides, d) {
      IdleAfter(rides, drivers, d, r);
      MarkExclusive(rides', drivers, d, row);
    } else {
      var a :| Holds(rides, d, a);
      assert Holds(rides', d, a);
    }
  }

  lemma CancelExclusive(w: World, ride: Id, user: Id)
    requires Sound(w) && Exclusive(w.rides, w.drivers)
    ensures var w' := CancelRide(w, ride, user).0;
            Exclusive(w'.rides, w'.drivers) <==> Disciplined(w, DoCancel(user, ride))
  {
    if CancelRide(w, ride, user).1.Granted? {
      var r := w.rides[ride];
      if r.driver.Some? {
        var d := r.driver.value;
        FreeExclusive(w.rides, w.drivers, Cancelled(r), d, w.drivers[d].(isAvailable := true));
      } else {
        WriteExclusive(w.rides, w.drivers, Cancelled(r));
      }
    }
  }

  lemma OnlineExclusive(w: World, user: Id, at: Point)
    requires Sound(w) && Exclusive(w.rides, w.drivers)
    ensures var w' := GoOnline(w, user, at).0;
            Exclusive(w'.rides, w'.drivers) <==> Disciplined(w, DoOnline(user, at))
  {
    if user in w.drivers {
      if Idle(w.rides, user) {
        MarkExclusive(w.rides, w.drivers, user, w.drivers[user].(isAvailable := true));
      } else {
        var a :| Holds(w.rides, user, a);
        assert Holds(GoOnline(w, user, at).0.rides, user, a);
      }
    }
  }

  /** Rating columns do not matter to exclusivity. */
  lemma RatedExclusive(rides: map<Id, Ride>, drivers: map<Id, Driver>, d: Id, score: nat)
    requires Exclusive(rides, drivers) && d in drivers
    ensures Exclusive(rides, drivers[d := RatedDriver(drivers[d], score)])
  {
    var row := RatedDriver(drivers[d], score);
    assert row.isAvailable == drivers[d].isAvailable;
    SameAvailability(rides, drivers, d, row);
  }

  lemma SameAvailability(rides: map<Id, Ride>, drivers: map<Id, Driver>, d: Id, row: Driver)
    requires Exclusive(rides, drivers) && d in drivers && row.isAvailable == drivers[d].isAvailable
    ensures Exclusive(rides, drivers[d := row])
  {
  }

  lemma RateExclusive(w: World, ride: Id, from: Id, score: int)
    requires Sound(w) && Exclusive(w.rides, w.drivers)
    ensures var w' := Rate(w, ride, from, score).0; Exclusive(w'.rides, w'.drivers)
  {
    hide AddScore, HasRated, ScoreDriver, ScoreUser, AddRating, Exclusive;
    if Rate(w, ride, from, score).1 == Finished {
      var to := Ratee(w.rides[ride], from).value;
      RateEffect(w, Rating(ride, from, to, score));
      if to in w.drivers {
        RatedExclusive(w.rides, w.drivers, to, score);
      }
    }
  }

  lemma OfflineExclusive(w: World, user: Id)
    requires Sound(w) && Exclusive(w.rides, w.drivers)
    ensures var w' := GoOffline(w, user).0; Exclusive(w'.rides, w'.drivers)
  {
    hide Exclusive;
    if user in w.drivers {
      MarkExclusive(w.rides, w.drivers, user, w.drivers[user].(isAvailable := false));
    }
  }

  lemma StartExclusive(w: World, ride: Id, driver: Id)
    requires Sound(w) && Exclusive(w.rides, w.drivers)
    ensures var w' := StartRide(w, ride, driver).0; Exclusive(w'.rides, w'.drivers)
  {
    if StartRide(w, ride, driver).1.Granted? {
      WriteExclusive(w.rides, w.drivers, Started(w.rides[ride]));
    }
  }

  lemma SignedUpExclusive(w: World, user: Id, vehicle: string, plate: string)
    requires Sound(w) && Exclusive(w.rides, w.drivers) && user in w.users
    ensures var w' := RegisterDriver(w, user, vehicle, plate).0; Exclusive(w'.rides, w'.drivers)
  {
    hide Exclusive;
    if user !in w.drivers {
      RegisterExclusive(w.rides, w.drivers, NewDriver(user, vehicle, plate));
    }
  }

  /** One call keeps exclusivity exactly when it is disciplined. */
  lemma ExclusiveExactlyWhen(w: World, c: Command)
    requires Sound(w) && Exclusive(w.rides, w.drivers) && Possible(w, c)
    ensures var w' := Serve(w, c).0; Exclusive(w'.rides, w'.drivers) <==> Disciplined(w, c)
  {
    hide RegisterDriver, GoOnline, GoOffline, RequestRide, AcceptRide, StartRide, CompleteRide, CancelRide, Rate,
      Exclusive, Sound;
    match c
    case DoSignUp(_, _) =>
    case DoRegisterDriver(user, vehicle, plate) =>
      SignedUpExclusive(w, user, vehicle, plate);
    case DoOnline(user, at) => OnlineExclusive(w, user, at);
    case DoOffline(user) => OfflineExclusive(w, user);
    case DoLocation(_, _, _) =>
    case DoRequest(user, trip, reply, uuid) => RequestExclusive(w, user, trip, reply, uuid);
    case DoAccept(user, ride) => AcceptExclusive(w, ride, user);
    case DoStart(user, ride) => StartExclusive(w, ride, user);
    case DoComplete(user, ride) => CompleteExclusive(w, ride, user);
    case DoCancel(user, ride) => CancelExclusive(w, ride, user);
    case DoRate(user, ride, score) => RateExclusive(w, ride, user, score);
    case DoWait(_) =>
  }

  lemma RegisterExclusive(rides: map<Id, Ride>, drivers: map<Id, Driver>, row: Driver)
    requires Exclusive(rides, drivers) && row.userId !in drivers
    ensures Exclusive(rides, drivers[row.userId := row])
  {
  }

  lemma RequestExclusive(w: World, rider: Id, trip: Trip, reply: seq<Hit>, uuid: Id)
    requires Exclusive(w.rides, w.drivers) && ValidTrip(trip) && uuid !in w.rides
    ensures var w' := RequestRide(w, rider, trip, reply, uuid).0; Exclusive(w'.rides, w'.drivers)
  {
    var r := RequestEffect(w, rider, trip, reply, uuid);
    if r.Some? {
      WriteExclusive(w.rides, w.drivers, r.value);
    }
  }

  /** Driver exclusivity after a run and after each shorter one. */
  ghost predicate ExclusiveThroughout(run: seq<Command>) {
    && Exclusive(After(run).rides, After(run).drivers)
    && (run != [] ==> ExclusiveThroughout(run[..|run| - 1]))
  }

  /** No step puts a busy driver online or frees a busy driver by cancelling a cancelled ride. */
  ghost predicate DisciplinedThroughout(run: seq<Command>) {
    run != [] ==>
      var w, c := After(run[..|run| - 1]), run[|run| - 1];
      (Possible(w, c) ==> Disciplined(w, c)) && DisciplinedThroughout(run[..|run| - 1])
  }

  /** Driver exclusivity holds all through a serial run exactly when the run is disciplined
      all through. */
  lemma {:induction false} ExclusivityExactlyWhen(run: seq<Command>)
    ensures ExclusiveThroughout(run) <==> DisciplinedThroughout(run)
  {
    if run != [] {
      var init, c := run[..|run| - 1], run[|run| - 1];
      ExclusivityExactlyWhen(init);
      RunsAreSound(init);
      if ExclusiveThroughout(init) && Possible(After(init), c) {
        ExclusiveExactlyWhen(After(init), c);
      }
    }
  }
}

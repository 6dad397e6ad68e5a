/** The service layer step by step (services/, routers/auth.py, routers/driver.py,
    stale_ride_retry.py), each method proved to be the serial call of module Serial. */
module Services {
  import opened Models
  import opened Surge
  import opened Pricing
  import opened Dispatch
  import opened Worlds
  import opened Stores
  import Contracts
  import Serial
  import SerialCalls

  class DriverService {
    const store: Store
    const drivers: DriverRepository
    const rides: RideRepository
    const streams: Streams

    ghost predicate Wired() { drivers.store == store && rides.store == store && streams.store == store }

    constructor (store: Store)
      ensures Wired() && this.store == store
    {
      this.store := store;
      drivers := new DriverRepository(store);
      rides := new RideRepository(store);
      streams := new Streams(store);
    }

    /** mark_available_by_id and mark_unavailable_by_id. */
    method Mark(user: Id, flag: bool) returns (ok: bool)
      requires Wired()
      modifies store`drivers, store`born, store`available
      ensures ok == (user in old(store.drivers))
      ensures store.View() ==
              if ok then SaveDriver(old(store.View()), old(store.drivers)[user].(isAvailable := flag))
              else old(store.View())
      ensures ok && old(store.drivers)[user].userId == user ==>
                store.drivers == old(store.drivers)[user := old(store.drivers)[user].(isAvailable := flag)]
                && store.available == if flag then old(store.available) + {user} else old(store.available) - {user}
    {
      var d := drivers.FindById(user);
      ok := d.Some?;
      if ok {
        drivers.Save(d.value.(isAvailable := flag));
      }
    }

    method GoOnline(user: Id, at: Point) returns (o: Outcome)
      requires Wired()
      modifies store
      ensures (store.View(), o) == Serial.GoOnline(old(store.View()), user, at)
      ensures Contracts.GoOnline(old(store.View()), store.View(), o, user, at)
    {
      hide Contracts.GoOnline;
      SerialCalls.GoOnlineKept(store.View(), user, at);
      var d := drivers.FindById(user);
      if d.None? {
        return Refused(404);
      }
      drivers.SetLocation(user, at);
      var _ := Mark(user, true);
      return Finished;
    }

    method GoOffline(user: Id) returns (o: Outcome)
      requires Wired()
      modifies store
      ensures (store.View(), o) == Serial.GoOffline(old(store.View()), user)
      ensures Contracts.GoOffline(old(store.View()), store.View(), o, user)
    {
      hide Contracts.GoOffline;
      SerialCalls.GoOfflineKept(store.View(), user);
      var d := drivers.FindById(user);
      if d.None? {
        return Refused(404);
      }
      drivers.ClearLocation(user);
      var _ := Mark(user, false);
      streams.Close(user);
      return Finished;
    }

    method UpdateLocation(user: Id, at: Point) returns (o: Outcome, held: Option<Id>)
      requires Wired()
      modifies store
      ensures user in old(store.drivers) ==> FirstHeld(old(store.View()), user, held)
      ensures (store.View(), o) == Serial.UpdateLocation(old(store.View()), user, at, held)
      ensures Contracts.UpdateLocation(old(store.View()), store.View(), o, user, at, held)
    {
      hide Contracts.UpdateLocation;
      ghost var before := store.View();
      var d := drivers.FindById(user);
      if d.None? {
        SerialCalls.UpdateLocationKept(before, user, at, None);
        return Refused(404), None;
      }
      drivers.SetLocation(user, at);
      held := rides.FindFirstHeld(user);
      assert FirstHeld(before, user, held);
      SerialCalls.UpdateLocationKept(before, user, at, held);
      if held.Some? {
        streams.Moved(store.rides[held.value], at);
      }
      return Finished, held;
    }
  }

  class RideService {
    const store: Store
    const rides: RideRepository
    const drivers: DriverRepository
    const driverService: DriverService
    const pricing: PricingService
    const producer: Producer

    ghost predicate Wired() {
      rides.store == store && drivers.store == store && driverService.store == store
      && driverService.Wired() && pricing.cache == store.cache && producer.store == store
    }

    constructor (store: Store)
      ensures Wired() && this.store == store
    {
      this.store := store;
      rides := new RideRepository(store);
      drivers := new DriverRepository(store);
      driverService := new DriverService(store);
      pricing := new PricingService(store.cache);
      producer := new Producer(store);
    }

    method RequestRide(rider: Id, trip: Trip, reply: seq<Hit>, uuid: Id) returns (o: Outcome)
      requires Wired() && store.cache.Valid() && ValidTrip(trip)
      modifies store, store.cache
      ensures store.cache.Valid()
      ensures (store.View(), o) == Serial.RequestRide(old(store.View()), rider, trip, reply, uuid)
      ensures Contracts.RequestRide(old(store.View()), store.View(), o, rider, trip, reply, uuid)
    {
      hide Contracts.RequestRide, Contracts.Busy, Contracts.Demand;
      ghost var before := store.View();
      SerialCalls.RequestRideKept(before, rider, trip, reply, uuid);
      var active := rides.ExistsActiveByRider(rider);
      if active {
        return Refused(409);
      }
      hide ComputeMultiplier;
      var pending := rides.CountPendingNear(trip.pickup);
      var free := |KeepAvailable(reply, store.available)|;
      ghost var hit := Live(store.cache.entries, trip.cell, store.now);
      var fare, surge := pricing.GetFareQuote(trip.distance, trip.cell, store.now, pending, free);
      if !hit {
        store.writes := store.writes + [SurgeWrite(trip.cell, store.now, pending, free, surge)];
      }
      assert (store.View(), Some(surge)) == Serial.ServeSurge(old(store.View()), trip.cell, pending, free);
      var ride := NewRide(uuid, rider, trip, fare, store.now);
      store.quotes := store.quotes[uuid := Quotation(trip, surge, store.now)];
      rides.Save(ride);
      producer.RideRequested(uuid);
      return Granted(ride);
    }

    method AcceptRide(ride: Id, driver: Id) returns (o: Outcome)
      requires Wired()
      modifies store
      ensures (store.View(), o) == Serial.AcceptRide(old(store.View()), ride, driver)
      ensures Contracts.AcceptRide(old(store.View()), store.View(), o, ride, driver)
    {
      hide Contracts.AcceptRide;
      SerialCalls.AcceptRideKept(store.View(), ride, driver);
      var found := rides.FindById(ride);
      if found.None? {
        return Refused(404);
      }
      var r := found.value;
      if r.status != REQUESTED {
        return Refused(409);
      }
      var d := drivers.FindById(driver);
      if d.None? {
        return Refused(403);
      }
      if !d.value.isAvailable {
        return Refused(409);
      }
      var _ := driverService.Mark(driver, false);
      ghost var earlier := if r.id in store.commits then store.commits[r.id] else [];
      rides.Save(Matched(r, driver));
      store.commits := store.commits[r.id := earlier + [driver]];
      producer.RideAccepted(r.id);
      return Granted(Matched(r, driver));
    }

    method StartRide(ride: Id, driver: Id) returns (o: Outcome)
      requires Wired()
      modifies store
      ensures (store.View(), o) == Serial.StartRide(old(store.View()), ride, driver)
      ensures Contracts.StartRide(old(store.View()), store.View(), o, ride, driver)
    {
      hide Contracts.StartRide;
      SerialCalls.StartRideKept(store.View(), ride, driver);
      var found := rides.FindById(ride);
      if found.None? {
        return Refused(404);
      }
      var r := found.value;
      if r.status != MATCHED {
        return Refused(409);
      }
      if r.driver != Some(driver) {
        return Refused(403);
      }
      rides.Save(Started(r));
      return Granted(Started(r));
    }

    method CompleteRide(ride: Id, driver: Id) returns (o: Outcome)
      requires Wired()
      modifies store
      ensures (store.View(), o) == Serial.CompleteRide(old(store.View()), ride, driver)
      ensures Contracts.CompleteRide(old(store.View()), store.View(), o, ride, driver)
    {
      hide Contracts.CompleteRide;
      SerialCalls.CompleteRideKept(store.View(), ride, driver);
      var found := rides.FindById(ride);
      if found.None? {
        return Refused(404);
      }
      var r := found.value;
      if r.status != IN_PROGRESS {
        return Refused(409);
      }
      if r.driver != Some(driver) {
        return Refused(403);
      }
      var done := Completed(r, store.now);
      rides.Save(done);
      var ok := driverService.Mark(driver, true);
      if !ok {
        return Refused(404);
      }
      producer.RideCompleted(r.id);
      return Granted(done);
    }

    method CancelRide(ride: Id, user: Id) returns (o: Outcome)
      requires Wired()
      modifies store
      ensures (store.View(), o) == Serial.CancelRide(old(store.View()), ride, user)
      ensures Contracts.CancelRide(old(store.View()), store.View(), o, ride, user)
    {
      hide Contracts.CancelRide;
      SerialCalls.CancelRideKept(store.View(), ride, user);
      var found := rides.FindById(ride);
      if found.None? {
        return Refused(404);
      }
      var r := found.value;
      if r.status == IN_PROGRESS || r.status == COMPLETED {
        return Refused(409);
      }
      if r.rider != user && r.driver != Some(user) {
        return Refused(403);
      }
      if r.driver.Some? {
        var ok := driverService.Mark(r.driver.value, true);
        if !ok {
          return Refused(404);
        }
      }
      rides.Save(Cancelled(r));
      producer.RideCancelled(r.id);
      return Granted(Cancelled(r));
    }
  }

  class RatingService {
    const store: Store
    const rides: RideRepository
    const drivers: DriverRepository
    const users: UserRepository
    const ratings: RatingRepository

    ghost predicate Wired() {
      rides.store == store && drivers.store == store && users.store == store && ratings.store == store
    }

    constructor (store: Store)
      ensures Wired() && this.store == store
    {
      this.store := store;
      rides := new RideRepository(store);
      drivers := new DriverRepository(store);
      users := new UserRepository(store);
      ratings := new RatingRepository(store);
    }

    method Rate(ride: Id, from: Id, score: int) returns (o: Outcome)
      requires Wired()
      modifies store
      ensures (store.View(), o) == Serial.Rate(old(store.View()), ride, from, score)
      ensures Contracts.Rate(old(store.View()), store.View(), o, ride, from, score)
    {
      hide Contracts.Rate;
      SerialCalls.RateKept(store.View(), ride, from, score);
      if !(1 <= score <= 5) {
        return Refused(400);
      }
      var found := rides.FindById(ride);
      if found.None? {
        return Refused(404);
      }
      var r := found.value;
      if r.status != COMPLETED {
        return Refused(409);
      }
      var to: Id;
      if from == r.rider {
        if r.driver.None? {
          return Refused(409);
        }
        to := r.driver.value;
      } else if Some(from) == r.driver {
        to := r.rider;
      } else {
        return Refused(403);
      }
      var rated := ratings.Exists(ride, from);
      if rated {
        return Refused(409);
      }
      ratings.Save(Rating(ride, from, to, score));
      var d := drivers.FindById(to);
      if d.Some? {
        drivers.Save(Serial.RatedDriver(d.value, score));
      }
      assert store.View() == Serial.ScoreDriver(AddRating(old(store.View()), Rating(ride, from, to, score)), to, score);
      var u := users.FindById(to);
      if u.Some? {
        users.Save(Serial.RatedUser(u.value, score));
      }
      return Finished;
    }
  }

  /** The endpoints that write users and issue tokens. */
  class Accounts {
    const store: Store
    const users: UserRepository
    const drivers: DriverRepository

    ghost predicate Wired() { users.store == store && drivers.store == store }

    constructor (store: Store)
      ensures Wired() && this.store == store
    {
      this.store := store;
      users := new UserRepository(store);
      drivers := new DriverRepository(store);
    }

    method SignUp(username: string, uuid: Id) returns (o: Outcome)
      requires Wired()
      modifies store
      ensures (store.View(), o) == Serial.SignUp(old(store.View()), username, uuid)
      ensures Contracts.SignUp(old(store.View()), store.View(), o, username, uuid)
    {
      hide Contracts.SignUp;
      SerialCalls.SignUpKept(store.View(), username, uuid);
      var taken := users.ExistsByUsername(username);
      if taken {
        return Refused(409);
      }
      users.Save(User(uuid, username, RIDER, None, 0));
      store.tokens := store.tokens + {Token(username, RIDER)};
      return Finished;
    }

    /** POST /auth/login; verified is what the password check says. */
    method Login(username: string, verified: bool) returns (o: Outcome)
      requires Wired()
      modifies store
      ensures Contracts.Login(old(store.View()), store.View(), o, username, verified)
    {
      var user := users.FindByUsername(username);
      if user.None? || !verified {
        return Refused(401);
      }
      store.tokens := store.tokens + {Token(username, user.value.role)};
      return Finished;
    }

    /** POST /auth/switch-mode for the name in the caller's token. */
    method SwitchMode(username: string, mode: Role) returns (o: Outcome)
      requires Wired()
      modifies store
      ensures Contracts.SwitchMode(old(store.View()), store.View(), o, username, mode)
    {
      if mode == DRIVER {
        var user := users.FindByUsername(username);
        if user.None? {
          return Refused(401);
        }
        if user.value.role != DRIVER {
          return Refused(403);
        }
      }
      store.tokens := store.tokens + {Token(username, mode)};
      return Finished;
    }

    /** POST /driver/register for a resolved user. */
    method RegisterDriver(user: User, vehicle: string, plate: string) returns (o: Outcome)
      requires Wired() && user.id in store.users && store.users[user.id] == user
      modifies store
      ensures (store.View(), o) == Serial.RegisterDriver(old(store.View()), user.id, vehicle, plate)
      ensures Contracts.RegisterDriver(old(store.View()), store.View(), o, user.id, vehicle, plate)
    {
      hide Contracts.RegisterDriver;
      SerialCalls.RegisterDriverKept(store.View(), user.id, vehicle, plate);
      var existing := drivers.FindById(user.id);
      if existing.Some? {
        return Refused(409);
      }
      drivers.Save(Serial.NewDriver(user.id, vehicle, plate));
      users.Save(user.(role := DRIVER));
      store.tokens := store.tokens + {Token(user.username, DRIVER)};
      return Finished;
    }
  }

  const RETRY_CUTOFF_SECONDS: nat := 120

  class StaleRideRetry {
    const store: Store
    const rides: RideRepository
    const producer: Producer

    ghost predicate Wired() { rides.store == store && producer.store == store }

    constructor (store: Store)
      ensures Wired() && this.store == store
    {
      this.store := store;
      rides := new RideRepository(store);
      producer := new Producer(store);
    }

    /** retry_once: publishes ride-requested once more for every ride still REQUESTED after
        two minutes, each exactly once, and does nothing else. */
    method RetryOnce() returns (retried: seq<Id>)
      requires Wired()
      modifies store`requested
      ensures store.View() == old(store.View()).(requested := old(store.requested) + retried)
      ensures forall id :: id in retried <==>
                id in store.rides && store.rides[id].status == REQUESTED
                && store.rides[id].requestedAt + 120 < store.now
      ensures forall i, j :: 0 <= i < j < |retried| ==> retried[i] != retried[j]
    {
      var stale := rides.FindRequestedOlderThan(RETRY_CUTOFF_SECONDS);
      retried := [];
      var todo := stale;
      while todo != {}
        invariant todo <= stale
        invariant store.View() == old(store.View()).(requested := old(store.requested) + retried)
        invariant forall id :: id in retried <==> id in stale - todo
        invariant forall i, j :: 0 <= i < j < |retried| ==> retried[i] != retried[j]
        decreases todo
      {
        var id :| id in todo;
        forall i | 0 <= i < |retried|
          ensures retried[i] != id
        {
          assert retried[i] in retried;
        }
        assert (old(store.requested) + retried) + [id] == old(store.requested) + (retried + [id]);
        producer.RideRequested(id);
        retried := retried + [id];
        todo := todo - {id};
      }
    }
  }
}

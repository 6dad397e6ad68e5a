/** Every serial call of Serial keeps its promise in Contracts, in every world. */
module SerialCalls {
  import opened Models
  import opened Surge
  import opened SurgeText
  import opened Fares
  import opened Pricing
  import opened Dispatch
  import opened Rounding
  import opened Worlds
  import Contracts
  import Serial

  /** The query counts what demand is. */
  lemma DemandCounted(w: World, at: Point)
    ensures PendingNear(w, at) == Contracts.Demand(w, at)
  {
    assert WaitingNear(w.rides, at)
           == set id | id in w.rides && w.rides[id].status == REQUESTED
                       && at.lat - 0.01 <= w.rides[id].pickup.lat <= at.lat + 0.01
                       && at.lng - 0.01 <= w.rides[id].pickup.lng <= at.lng + 0.01;
  }

  lemma RequestRideKept(w: World, rider: Id, trip: Trip, reply: seq<Hit>, uuid: Id)
    requires ValidTrip(trip)
    ensures var (w', o) := Serial.RequestRide(w, rider, trip, reply, uuid);
            Contracts.RequestRide(w, w', o, rider, trip, reply, uuid)
  {
    hide Parse, ComputeMultiplier, FareCents, PendingNear, KeepAvailable, Contracts.Demand, Put;
    hide HasActiveRide, Contracts.Busy, Contracts.Supply, Contracts.Stored, StoreSurge, SaveNew, PublishRequested;
    DemandCounted(w, trip.pickup);
    SupplyCounted(w, reply);
    ActiveIsBusy(w, rider);
    var (w1, m) := Serial.ServeSurge(w, trip.cell, PendingNear(w, trip.pickup), |KeepAvailable(reply, w.available)|);
    StoreEffect(w, trip.cell, PendingNear(w, trip.pickup), |KeepAvailable(reply, w.available)|);
    hide Contracts.Tariff;
    if !HasActiveRide(w, rider) && m.Some? {
      QuotedByTariff(trip.distance, m.value);
      NewEffect(w, w1, NewRide(uuid, rider, trip, FareCents(trip.distance, m.value), w.now),
                Quotation(trip, m.value, w.now));
    }
  }

  lemma QuotedByTariff(d: Km, m: Decimal)
    requires ValidKm(d)
    ensures Contracts.Tariff(d, m, FareCents(d, m))
  {
    FareWithinHalfCent(d, m);
  }

  lemma SupplyCounted(w: World, reply: seq<Hit>)
    ensures |KeepAvailable(reply, w.available)| == Contracts.Supply(w, reply)
  {
    KeptCount(reply, w.available);
  }

  lemma ActiveIsBusy(w: World, rider: Id)
    ensures HasActiveRide(w, rider) <==> Contracts.Busy(w, rider)
  {
  }

  lemma StoreEffect(w: World, cell: Cell, pending: nat, free: nat)
    ensures var w1 := StoreSurge(w, cell, pending, free, ComputeMultiplier(pending, free));
            w1 == w.(surge := w1.surge, writes := w1.writes)
            && forall later: World :: later.surge == w1.surge ==>
                 Contracts.Stored(w, later, cell, ComputeMultiplier(pending, free))
  {
    hide ComputeMultiplier, Print, Parse;
    ParsePrint(ComputeMultiplier(pending, free));
  }

  lemma NewEffect(w: World, w1: World, r: Ride, q: Quotation)
    requires w1 == w.(surge := w1.surge, writes := w1.writes)
    ensures var w' := PublishRequested(SaveNew(w1, r, q), r.id);
            r.id in w'.quotes && w'.quotes[r.id] == q
            && w' == w.(rides := w.rides[r.id := r], requested := w.requested + [r.id], quotes := w'.quotes,
                        surge := w1.surge, writes := w1.writes)
  {
  }

  lemma AcceptRideKept(w: World, ride: Id, driver: Id)
    ensures var (w', o) := Serial.AcceptRide(w, ride, driver); Contracts.AcceptRide(w, w', o, ride, driver)
  {
  }

  lemma StartRideKept(w: World, ride: Id, driver: Id)
    ensures var (w', o) := Serial.StartRide(w, ride, driver); Contracts.StartRide(w, w', o, ride, driver)
  {
  }

  lemma CompleteRideKept(w: World, ride: Id, driver: Id)
    ensures var (w', o) := Serial.CompleteRide(w, ride, driver); Contracts.CompleteRide(w, w', o, ride, driver)
  {
  }

  lemma CancelRideKept(w: World, ride: Id, user: Id)
    ensures var (w', o) := Serial.CancelRide(w, ride, user); Contracts.CancelRide(w, w', o, ride, user)
  {
    hide SaveDriver, Contracts.Marked;
    if ride in w.rides && w.rides[ride].driver.Some? && w.rides[ride].driver.value in w.drivers {
      MarkEffect(w, w.rides[ride].driver.value, true, Serial.CancelRide(w, ride, user).0);
    }
  }

  /** The dual write of a flag. */
  lemma MarkEffect(w: World, driver: Id, flag: bool, later: World)
    requires driver in w.drivers
    ensures var w' := SaveDriver(w, w.drivers[driver].(isAvailable := flag));
            w' == w.(drivers := w'.drivers, available := w'.available, born := w'.born)
            && (later.drivers == w'.drivers && later.available == w'.available
                ==> Contracts.Marked(w, later, driver, flag))
  {
  }

  lemma GoOnlineKept(w: World, user: Id, at: Point)
    ensures var (w', o) := Serial.GoOnline(w, user, at); Contracts.GoOnline(w, w', o, user, at)
  {
  }

  lemma GoOfflineKept(w: World, user: Id)
    ensures var (w', o) := Serial.GoOffline(w, user); Contracts.GoOffline(w, w', o, user)
  {
  }

  lemma UpdateLocationKept(w: World, user: Id, at: Point, held: Option<Id>)
    requires user in w.drivers ==> FirstHeld(w, user, held)
    ensures var (w', o) := Serial.UpdateLocation(w, user, at, held);
            Contracts.UpdateLocation(w, w', o, user, at, held)
  {
    assert forall id :: Holds(w.rides, user, id) <==> Contracts.Drives(w, user, id);
  }

  lemma RateKept(w: World, ride: Id, from: Id, score: int)
    ensures var (w', o) := Serial.Rate(w, ride, from, score); Contracts.Rate(w, w', o, ride, from, score)
  {
    hide HasRated, AddRating, Serial.ScoreDriver, Serial.ScoreUser, Contracts.NewMean;
    RatedBefore(w, ride, from);
    if Serial.Rate(w, ride, from, score).1 == Finished {
      var to := Serial.Ratee(w.rides[ride], from).value;
      var w1 := AddRating(w, Rating(ride, from, to, score));
      AddEffect(w, Rating(ride, from, to, score));
      ScoreDriverEffect(w1, to, score);
      ScoreUserEffect(Serial.ScoreDriver(w1, to, score), to, score);
    }
  }

  lemma AddEffect(w: World, r: Rating)
    ensures AddRating(w, r) == w.(ratings := w.ratings + [r])
  {
  }

  lemma ScoreDriverEffect(w: World, to: Id, score: nat)
    ensures var w' := Serial.ScoreDriver(w, to, score);
            if to !in w.drivers then w' == w
            else
              var d := w.drivers[to];
              var mean := Contracts.NewMean(d.avgRating, d.ratingCount, score);
              w'.drivers == w.drivers[d.userId := d.(avgRating := Some(mean), ratingCount := d.ratingCount + 1)]
              && w'.available == (if d.isAvailable then w.available + {d.userId} else w.available - {d.userId})
              && w' == w.(drivers := w'.drivers, available := w'.available, born := w'.born)
  {
    hide HalfUp;
  }

  lemma ScoreUserEffect(w: World, to: Id, score: nat)
    ensures var w' := Serial.ScoreUser(w, to, score);
            if to !in w.users then w' == w
            else
              var u := w.users[to];
              var mean := Contracts.NewMean(u.avgRating, u.ratingCount, score);
              w' == w.(users := w.users[u.id := u.(avgRating := Some(mean), ratingCount := u.ratingCount + 1)])
  {
    hide HalfUp;
  }

  lemma RatedBefore(w: World, ride: Id, from: Id)
    ensures HasRated(w.ratings, ride, from) <==>
            exists i :: 0 <= i < |w.ratings| && w.ratings[i].rideId == ride && w.ratings[i].fromUser == from
  {
  }

  lemma SignUpKept(w: World, username: string, uuid: Id)
    ensures var (w', o) := Serial.SignUp(w, username, uuid); Contracts.SignUp(w, w', o, username, uuid)
  {
    hide UsernameTaken;
    assert UsernameTaken(w, username) <==> exists id :: id in w.users && w.users[id].username == username by {
      TakenIsNamed(w, username);
    }
  }

  lemma TakenIsNamed(w: World, username: string)
    ensures UsernameTaken(w, username) <==> exists id :: id in w.users && w.users[id].username == username
  {
  }

  lemma RegisterDriverKept(w: World, user: Id, vehicle: string, plate: string)
    requires user in w.users
    ensures var (w', o) := Serial.RegisterDriver(w, user, vehicle, plate);
            Contracts.RegisterDriver(w, w', o, user, vehicle, plate)
  {
  }
}

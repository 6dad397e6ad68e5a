/** What each call promises, written out on the stored columns: who is refused and how, the
    rows, logs and streams an answered call changes, and that it changes nothing else. The
    predicates name no function of the model that a call is made of, but the multiplier of two
    counts and the reading of its text, which modules Surge and SurgeText describe. */
module Contracts {
  import opened Models
  import opened Rounding
  import opened Surge
  import opened SurgeText
  import opened Fares
  import opened Pricing
  import opened Dispatch
  import opened Worlds

  /** The profile is saved with this flag: the column and the set say the same. */
  predicate Marked(w: World, w': World, driver: Id, flag: bool) {
    && driver in w.drivers
    && (var d := w.drivers[driver].(isAvailable := flag);
        w'.drivers == w.drivers[d.userId := d]
        && w'.available == if flag then w.available + {d.userId} else w.available - {d.userId})
  }

  // ---------- services/ride.py ----------

  /** The rider has a ride REQUESTED, MATCHED or IN_PROGRESS. */
  predicate Busy(w: World, rider: Id) {
    exists id :: id in w.rides && w.rides[id].rider == rider && w.rides[id].status in {REQUESTED, MATCHED, IN_PROGRESS}
  }

  /** The REQUESTED rides picked up within 0.01 degrees of the point. */
  function Demand(w: World, at: Point): nat {
    |set id | id in w.rides && w.rides[id].status == REQUESTED
              && at.lat - 0.01 <= w.rides[id].pickup.lat <= at.lat + 0.01
              && at.lng - 0.01 <= w.rides[id].pickup.lng <= at.lng + 0.01|
  }

  /** The hits of a search whose drivers are in the availability set. */
  function Supply(w: World, reply: seq<Hit>): nat {
    |set i | 0 <= i < |reply| && reply[i].driver in w.available|
  }

  /** 2.00 and 1.50 a kilometre, times the multiplier, half up to cents. */
  predicate Tariff(d: Km, m: Decimal, cents: nat) {
    var one := d.den * Pow10(m.places);
    -(one as int) <= 2 * ((200 * d.den + 150 * d.num) * m.coeff - cents * one) < one
  }

  /** The cell's entry reads as the multiplier for 30 seconds, and no other entry changed. */
  predicate Stored(w: World, w': World, cell: Cell, m: Decimal) {
    cell in w'.surge && w'.surge == w.surge[cell := w'.surge[cell]]
    && Parse(w'.surge[cell].text) == Some(m) && w'.surge[cell].deadline == w.now + 30
  }

  /** request_ride: refused while the rider has an active ride; otherwise a new REQUESTED row,
      quoted at the cell's multiplier, which on a miss is that of demand and supply around the
      pickup, and announced once. */
  predicate RequestRide(w: World, w': World, o: Outcome, rider: Id, trip: Trip, reply: seq<Hit>, uuid: Id)
    requires ValidTrip(trip)
  {
    var cached := trip.cell in w.surge && w.now < w.surge[trip.cell].deadline;
    if Busy(w, rider) then w' == w && o == Refused(409)
    else if cached && Parse(w.surge[trip.cell].text).None? then w' == w && o == Failed
    else
      && o.Granted? && uuid in w'.quotes && w'.quotes[uuid].trip == trip && w'.quotes[uuid].servedAt == w.now
      && (var m := w'.quotes[uuid].multiplier;
          o.ride == Ride(uuid, rider, None, trip.pickup, trip.dropoff, REQUESTED,
                         o.ride.estimatedFare, None, w.now, None, 0)
          && o.ride.estimatedFare.Some? && Tariff(trip.distance, m, o.ride.estimatedFare.value)
          && (if cached then Parse(w.surge[trip.cell].text) == Some(m)
              else m == ComputeMultiplier(Demand(w, trip.pickup), Supply(w, reply))))
      && w' == w.(rides := w.rides[uuid := o.ride], requested := w.requested + [uuid],
                  quotes := w'.quotes, surge := w'.surge, writes := w'.writes)
      && (if cached then w'.surge == w.surge && w'.writes == w.writes
          else Stored(w, w', trip.cell, w'.quotes[uuid].multiplier))
  }

  /** accept_ride: a REQUESTED ride goes to a driver whose profile says available; the profile
      and the set then say unavailable, and the accept is announced once. */
  predicate AcceptRide(w: World, w': World, o: Outcome, ride: Id, driver: Id) {
    if ride !in w.rides then w' == w && o == Refused(404)
    else if w.rides[ride].status != REQUESTED then w' == w && o == Refused(409)
    else if driver !in w.drivers then w' == w && o == Refused(403)
    else if !w.drivers[driver].isAvailable then w' == w && o == Refused(409)
    else
      var r := w.rides[ride];
      && o == Granted(r.(driver := Some(driver), status := MATCHED, version := r.version + 1))
      && Marked(w, w', driver, false)
      && w' == w.(rides := w.rides[r.id := o.ride], accepted := w.accepted + [r.id], drivers := w'.drivers,
                  available := w'.available, commits := w'.commits, born := w'.born)
  }

  predicate StartRide(w: World, w': World, o: Outcome, ride: Id, driver: Id) {
    if ride !in w.rides then w' == w && o == Refused(404)
    else if w.rides[ride].status != MATCHED then w' == w && o == Refused(409)
    else if w.rides[ride].driver != Some(driver) then w' == w && o == Refused(403)
    else
      var r := w.rides[ride];
      o == Granted(r.(status := IN_PROGRESS, version := r.version + 1)) && w' == w.(rides := w.rides[r.id := o.ride])
  }

  /** complete_ride: the quote becomes the fare and now the time of completion; the driver is
      free again, and the completion is announced once. */
  predicate CompleteRide(w: World, w': World, o: Outcome, ride: Id, driver: Id) {
    if ride !in w.rides then w' == w && o == Refused(404)
    else if w.rides[ride].status != IN_PROGRESS then w' == w && o == Refused(409)
    else if w.rides[ride].driver != Some(driver) then w' == w && o == Refused(403)
    else
      var r := w.rides[ride];
      var done := r.(status := COMPLETED, fare := r.estimatedFare, completedAt := Some(w.now),
                     version := r.version + 1);
      if driver !in w.drivers then o == Refused(404) && w' == w.(rides := w.rides[r.id := done])
      else
        && o == Granted(done) && Marked(w, w', driver, true)
        && w' == w.(rides := w.rides[r.id := done], completed := w.completed + [r.id], drivers := w'.drivers,
                    available := w'.available, born := w'.born)
  }

  /** cancel_ride: a participant cancels a ride that is not under way or over, a cancelled one
      too; its driver, if any, is freed, and the cancellation is announced once. */
  predicate CancelRide(w: World, w': World, o: Outcome, ride: Id, user: Id) {
    if ride !in w.rides then w' == w && o == Refused(404)
    else
      var r := w.rides[ride];
      if r.status in {IN_PROGRESS, COMPLETED} then w' == w && o == Refused(409)
      else if user != r.rider && r.driver != Some(user) then w' == w && o == Refused(403)
      else if r.driver.Some? && r.driver.value !in w.drivers then w' == w && o == Refused(404)
      else
        && o == Granted(r.(status := CANCELLED, version := r.version + 1))
        && (if r.driver.Some? then Marked(w, w', r.driver.value, true)
            else w'.drivers == w.drivers && w'.available == w.available)
        && w' == w.(rides := w.rides[r.id := o.ride], cancelled := w.cancelled + [r.id], drivers := w'.drivers,
                    available := w'.available, born := w'.born)
  }

  // ---------- services/driver.py ----------

  predicate GoOnline(w: World, w': World, o: Outcome, user: Id, at: Point) {
    if user !in w.drivers then w' == w && o == Refused(404)
    else
      && o == Finished && Marked(w, w', user, true)
      && w' == w.(located := w.located[user := at], drivers := w'.drivers, available := w'.available, born := w'.born)
  }

  predicate GoOffline(w: World, w': World, o: Outcome, user: Id) {
    if user !in w.drivers then w' == w && o == Refused(404)
    else
      && o == Finished && Marked(w, w', user, false)
      && w' == w.(located := w.located - {user}, signals := w.signals + [StreamClosed(user)], drivers := w'.drivers,
                  available := w'.available, born := w'.born)
  }

  /** The driver's ride, MATCHED or IN_PROGRESS. */
  predicate Drives(w: World, user: Id, ride: Id) {
    ride in w.rides && w.rides[ride].driver == Some(user) && w.rides[ride].status in {MATCHED, IN_PROGRESS}
  }

  /** update_location: the stream of a ride the driver has, if there is one, is told where the
      driver is on the way to its dropoff. */
  predicate UpdateLocation(w: World, w': World, o: Outcome, user: Id, at: Point, held: Option<Id>) {
    if user !in w.drivers then w' == w && o == Refused(404)
    else
      && o == Finished
      && (if held.Some? then Drives(w, user, held.value) else forall id :: id in w.rides ==> !Drives(w, user, id))
      && w' == w.(located := w.located[user := at],
                  signals := if held.None? then w.signals
                             else
                               var r := w.rides[held.value];
                               w.signals + [DriverMoved(r.id, at, r.dropoff)])
  }

  // ---------- services/rating.py ----------

  /** The running mean of n scores and one more, in hundredths, half up. */
  function NewMean(avg: Option<nat>, n: nat, score: nat): nat {
    HalfUp((if avg.Some? then avg.value else 0) * n + 100 * score, n + 1)
  }

  /** rate: once for each participant of a completed ride; the rider rates the driver and the
      driver the rider, and the columns of the one rated take in the score. */
  predicate Rate(w: World, w': World, o: Outcome, ride: Id, from: Id, score: int) {
    if !(1 <= score <= 5) then w' == w && o == Refused(400)
    else if ride !in w.rides then w' == w && o == Refused(404)
    else if w.rides[ride].status != COMPLETED then w' == w && o == Refused(409)
    else
      var r := w.rides[ride];
      if from == r.rider && r.driver.None? then w' == w && o == Refused(409)
      else if from != r.rider && r.driver != Some(from) then w' == w && o == Refused(403)
      else if exists i :: 0 <= i < |w.ratings| && w.ratings[i].rideId == ride && w.ratings[i].fromUser == from then
        w' == w && o == Refused(409)
      else
        var to := if from == r.rider then r.driver.value else r.rider;
        && o == Finished
        && w'.users == (if to !in w.users then w.users
                        else
                          var u := w.users[to];
                          w.users[u.id := u.(avgRating := Some(NewMean(u.avgRating, u.ratingCount, score)),
                                             ratingCount := u.ratingCount + 1)])
        && w'.drivers == (if to !in w.drivers then w.drivers
                          else
                            var d := w.drivers[to];
                            w.drivers[d.userId := d.(avgRating := Some(NewMean(d.avgRating, d.ratingCount, score)),
                                                     ratingCount := d.ratingCount + 1)])
        && w'.available == (if to !in w.drivers then w.available
                            else if w.drivers[to].isAvailable then w.available + {w.drivers[to].userId}
                            else w.available - {w.drivers[to].userId})
        && w' == w.(ratings := w.ratings + [Rating(ride, from, to, score)], users := w'.users,
                    drivers := w'.drivers, available := w'.available, born := w'.born)
  }

  // ---------- routers/auth.py and routers/driver.py ----------

  predicate SignUp(w: World, w': World, o: Outcome, username: string, uuid: Id) {
    if exists id :: id in w.users && w.users[id].username == username then w' == w && o == Refused(409)
    else
      && o == Finished
      && w' == w.(users := w.users[uuid := User(uuid, username, RIDER, None, 0)],
                  tokens := w.tokens + {Token(username, RIDER)})
  }

  predicate Named(w: World, user: Id, username: string) { user in w.users && w.users[user].username == username }

  /** login: a token in the stored role for whoever has the name and the right password. */
  predicate Login(w: World, w': World, o: Outcome, username: string, verified: bool) {
    if !verified || forall id :: id in w.users ==> !Named(w, id, username) then w' == w && o == Refused(401)
    else
      && o == Finished
      && exists id :: id in w.users && Named(w, id, username)
                      && w' == w.(tokens := w.tokens + {Token(username, w.users[id].role)})
  }

  /** switch-mode: anyone may go back to RIDER, only a stored DRIVER on to DRIVER. */
  predicate SwitchMode(w: World, w': World, o: Outcome, username: string, mode: Role) {
    if mode == RIDER then o == Finished && w' == w.(tokens := w.tokens + {Token(username, RIDER)})
    else if forall id :: id in w.users ==> !Named(w, id, username) then w' == w && o == Refused(401)
    else
      exists id :: id in w.users && Named(w, id, username)
                   && if w.users[id].role == DRIVER then
                        o == Finished && w' == w.(tokens := w.tokens + {Token(username, DRIVER)})
                      else w' == w && o == Refused(403)
  }

  /** POST /driver/register: an unrated, unavailable profile, the role DRIVER, and a token. */
  predicate RegisterDriver(w: World, w': World, o: Outcome, user: Id, vehicle: string, plate: string) {
    if user in w.drivers then w' == w && o == Refused(409)
    else
      && user in w.users && o == Finished
      && w' == w.(drivers := w.drivers[user := Driver(user, vehicle, plate, false, None, 0)],
                  available := w.available - {user},
                  users := w.users[w.users[user].id := w.users[user].(role := DRIVER)],
                  tokens := w.tokens + {Token(w.users[user].username, DRIVER)}, born := w'.born)
  }
}

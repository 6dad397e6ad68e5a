/** Each service call run by itself, without interleaving: what it leaves in the world and
    how it answers. The methods of Services are proved to do exactly this, and so are the
    handlers of Machine when nothing comes between their steps. */
module Serial {
  import opened Models
  import opened Surge
  import opened Fares
  import opened Pricing
  import opened Dispatch
  import opened RatingMath
  import opened Worlds

  // ---------- services/ride.py ----------

  /** _calculate_fare's multiplier: read through the surge cache, computed on a miss. */
  function ServeSurge(w: World, cell: Cell, pending: nat, free: nat): (World, Option<Decimal>) {
    if Live(w.surge, cell, w.now) then (w, Lookup(w.surge, cell, w.now))
    else
      var m := ComputeMultiplier(pending, free);
      (StoreSurge(w, cell, pending, free, m), Some(m))
  }

  /** request_ride; reply is GEOSEARCH's answer around the pickup and uuid a new UUID. */
  function RequestRide(w: World, rider: Id, trip: Trip, reply: seq<Hit>, uuid: Id): (World, Outcome)
    requires ValidTrip(trip)
  {
    if HasActiveRide(w, rider) then (w, Refused(409))
    else
      var (w1, m) := ServeSurge(w, trip.cell, PendingNear(w, trip.pickup), |KeepAvailable(reply, w.available)|);
      if m.None? then (w1, Failed)
      else
        var ride := NewRide(uuid, rider, trip, FareCents(trip.distance, m.value), w.now);
        var w2 := SaveNew(w1, ride, Quotation(trip, m.value, w.now));
        (PublishRequested(w2, uuid), Granted(ride))
  }

  function AcceptRide(w: World, ride: Id, driver: Id): (World, Outcome) {
    if ride !in w.rides then (w, Refused(404))
    else if w.rides[ride].status != REQUESTED then (w, Refused(409))
    else if driver !in w.drivers then (w, Refused(403))
    else if !w.drivers[driver].isAvailable then (w, Refused(409))
    else
      var r := w.rides[ride];
      var w1 := SaveDriver(w, w.drivers[driver].(isAvailable := false));
      (PublishAccepted(SaveMatch(w1, r, driver), r.id), Granted(Matched(r, driver)))
  }

  function StartRide(w: World, ride: Id, driver: Id): (World, Outcome) {
    if ride !in w.rides then (w, Refused(404))
    else
      var r := w.rides[ride];
      if r.status != MATCHED then (w, Refused(409))
      else if r.driver != Some(driver) then (w, Refused(403))
      else (SaveRide(w, Started(r)), Granted(Started(r)))
  }

  function CompleteRide(w: World, ride: Id, driver: Id): (World, Outcome) {
    if ride !in w.rides then (w, Refused(404))
    else
      var r := w.rides[ride];
      if r.status != IN_PROGRESS then (w, Refused(409))
      else if r.driver != Some(driver) then (w, Refused(403))
      else
        var w1 := SaveRide(w, Completed(r, w.now));
        if driver !in w1.drivers then (w1, Refused(404))
        else
          var w2 := SaveDriver(w1, w1.drivers[driver].(isAvailable := true));
          (PublishCompleted(w2, r.id), Granted(Completed(r, w.now)))
  }

  function CancelRide(w: World, ride: Id, user: Id): (World, Outcome) {
    if ride !in w.rides then (w, Refused(404))
    else
      var r := w.rides[ride];
      if r.status == IN_PROGRESS || r.status == COMPLETED then (w, Refused(409))
      else if r.rider != user && r.driver != Some(user) then (w, Refused(403))
      else if r.driver.Some? && r.driver.value !in w.drivers then (w, Refused(404))
      else
        var w1 := if r.driver.None? then w
                  else SaveDriver(w, w.drivers[r.driver.value].(isAvailable := true));
        (PublishCancelled(SaveRide(w1, Cancelled(r)), r.id), Granted(Cancelled(r)))
  }

  // ---------- services/driver.py ----------

  function GoOnline(w: World, user: Id, at: Point): (World, Outcome) {
    if user !in w.drivers then (w, Refused(404))
    else
      var w1 := w.(located := w.located[user := at]);
      (SaveDriver(w1, w1.drivers[user].(isAvailable := true)), Finished)
  }

  function GoOffline(w: World, user: Id): (World, Outcome) {
    if user !in w.drivers then (w, Refused(404))
    else
      var w1 := w.(located := w.located - {user});
      (CloseStream(SaveDriver(w1, w1.drivers[user].(isAvailable := false)), user), Finished)
  }

  /** update_location; held is the ride the last query finds. */
  function UpdateLocation(w: World, user: Id, at: Point, held: Option<Id>): (World, Outcome)
    requires user in w.drivers ==> FirstHeld(w, user, held)
  {
    if user !in w.drivers then (w, Refused(404))
    else
      var w1 := w.(located := w.located[user := at]);
      (if held.Some? then TellMoved(w1, w1.rides[held.value], at) else w1, Finished)
  }

  // ---------- services/rating.py ----------

  function RatedDriver(d: Driver, score: nat): Driver {
    var t := AddScore(Tally(d.avgRating, d.ratingCount), score);
    d.(avgRating := t.avg, ratingCount := t.count)
  }

  function RatedUser(u: User, score: nat): User {
    var t := AddScore(Tally(u.avgRating, u.ratingCount), score);
    u.(avgRating := t.avg, ratingCount := t.count)
  }

  /** Who is rated when from rates the ride, or how the call is refused. */
  function Ratee(r: Ride, from: Id): (to: Option<Id>)
    ensures to.Some? ==> r.driver.Some? && from in {r.rider, r.driver.value} && to.value in {r.rider, r.driver.value}
  {
    if from == r.rider then r.driver
    else if Some(from) == r.driver then Some(r.rider)
    else None
  }

  function RefusedRatee(r: Ride, from: Id): Outcome {
    if from == r.rider then Refused(409) else Refused(403)
  }

  function ScoreDriver(w: World, to: Id, score: nat): World {
    if to in w.drivers then SaveDriver(w, RatedDriver(w.drivers[to], score)) else w
  }

  function ScoreUser(w: World, to: Id, score: nat): World {
    if to in w.users then SaveUser(w, RatedUser(w.users[to], score)) else w
  }

  function Rate(w: World, ride: Id, from: Id, score: int): (World, Outcome) {
    if !(1 <= score <= 5) then (w, Refused(400))
    else if ride !in w.rides then (w, Refused(404))
    else
      var r := w.rides[ride];
      if r.status != COMPLETED then (w, Refused(409))
      else if Ratee(r, from).None? then (w, RefusedRatee(r, from))
      else if HasRated(w.ratings, ride, from) then (w, Refused(409))
      else
        var to := Ratee(r, from).value;
        (ScoreUser(ScoreDriver(AddRating(w, Rating(ride, from, to, score)), to, score), to, score), Finished)
  }

  // ---------- routers/auth.py and routers/driver.py ----------

  function SignUp(w: World, username: string, uuid: Id): (World, Outcome) {
    if UsernameTaken(w, username) then (w, Refused(409))
    else
      var w1 := SaveUser(w, User(uuid, username, RIDER, None, 0));
      (IssueToken(w1, username, RIDER), Finished)
  }

  function NewDriver(user: Id, vehicle: string, plate: string): Driver {
    Driver(user, vehicle, plate, false, None, 0)
  }

  function RegisterDriver(w: World, user: Id, vehicle: string, plate: string): (World, Outcome)
    requires user in w.users
  {
    if user in w.drivers then (w, Refused(409))
    else
      var u := w.users[user];
      var w1 := SaveDriver(w, NewDriver(user, vehicle, plate));
      var w2 := SaveUser(w1, u.(role := DRIVER));
      (IssueToken(w2, u.username, DRIVER), Finished)
  }

  // ---------- serial runs ----------

  datatype Command =
    | DoSignUp(username: string, uuid: Id)
    | DoRegisterDriver(user: Id, vehicle: string, plate: string)
    | DoOnline(user: Id, at: Point)
    | DoOffline(user: Id)
    | DoLocation(user: Id, at: Point, held: Option<Id>)
    | DoRequest(user: Id, trip: Trip, reply: seq<Hit>, uuid: Id)
    | DoAccept(user: Id, ride: Id)
    | DoStart(user: Id, ride: Id)
    | DoComplete(user: Id, ride: Id)
    | DoCancel(user: Id, ride: Id)
    | DoRate(user: Id, ride: Id, score: int)
    | DoWait(seconds: nat)

  /** Requests come from users that exist, new UUIDs are new, trips have a distance, and a
      query's answer is one it can give. */
  predicate Possible(w: World, c: Command) {
    match c
    case DoSignUp(_, uuid) => uuid !in w.users
    case DoRequest(user, trip, reply, uuid) =>
      user in w.users && ValidTrip(trip) && uuid !in w.rides
      && Answers(w.located.Keys, SURGE_SEARCH_RADIUS_KM, reply)
    case DoWait(_) => true
    case DoLocation(user, _, held) => user in w.users && (user in w.drivers ==> FirstHeld(w, user, held))
    case _ => c.user in w.users
  }

  function Serve(w: World, c: Command): (World, Outcome)
    requires Possible(w, c)
  {
    match c
    case DoSignUp(username, uuid) => SignUp(w, username, uuid)
    case DoRegisterDriver(user, vehicle, plate) => RegisterDriver(w, user, vehicle, plate)
    case DoOnline(user, at) => GoOnline(w, user, at)
    case DoOffline(user) => GoOffline(w, user)
    case DoLocation(user, at, held) => UpdateLocation(w, user, at, held)
    case DoRequest(user, trip, reply, uuid) => RequestRide(w, user, trip, reply, uuid)
    case DoAccept(user, ride) => AcceptRide(w, ride, user)
    case DoStart(user, ride) => StartRide(w, ride, user)
    case DoComplete(user, ride) => CompleteRide(w, ride, user)
    case DoCancel(user, ride) => CancelRide(w, ride, user)
    case DoRate(user, ride, score) => Rate(w, ride, user, score)
    case DoWait(seconds) => (w.(now := w.now + seconds), Finished)
  }

  /** The world after a serial run from an empty one; an impossible command does nothing. */
  function After(run: seq<Command>): World {
    if run == [] then EmptyWorld
    else
      var w := After(run[..|run| - 1]);
      if Possible(w, run[|run| - 1]) then Serve(w, run[|run| - 1]).0 else w
  }
}

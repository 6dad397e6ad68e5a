/** Everything the service stores outside its own memory, and the single repository, Redis
    and Kafka calls on it (repositories/, kafka_producer.py). */
module Worlds {
  import opened Models
  import opened Surge
  import opened Fares
  import opened Pricing
  import opened Dispatch

  /** Where a requested ride goes; its distance and surge cell are functions of the points. */
  datatype Trip = Trip(pickup: Point, dropoff: Point, distance: Km, cell: Cell)

  predicate ValidTrip(t: Trip) { ValidKm(t.distance) }

  /** History of the surge cache: a value written, and the counts it was computed from. */
  datatype SurgeWrite = SurgeWrite(cell: Cell, at: nat, pending: nat, free: nat, value: Decimal)

  /** History of a ride's quote: what it was computed from, and when it was served. */
  datatype Quotation = Quotation(trip: Trip, multiplier: Decimal, servedAt: nat)

  datatype World = World(
    // Postgres
    rides: map<Id, Ride>, drivers: map<Id, Driver>, users: map<Id, User>, ratings: seq<Rating>,
    // Redis
    available: set<Id>, located: map<Id, Point>, surge: Cache, offers: Offers,
    // Kafka topics
    requested: seq<Id>, accepted: seq<Id>, completed: seq<Id>, cancelled: seq<Id>,
    // issued session tokens, the clock, and what was sent into the streams
    tokens: set<Token>, now: nat, signals: seq<Signal>,
    // history that no code reads: drivers whose accept of a ride was saved, surge writes,
    // quotes of rides, and how many ratings existed when a driver profile was created
    commits: map<Id, seq<Id>>, writes: seq<SurgeWrite>, quotes: map<Id, Quotation>, born: map<Id, nat>)

  const EmptyWorld := World(
    map[], map[], map[], [], {}, map[], map[], map[], [], [], [], [], {}, 0, [], map[], [], map[], map[])

  // ---------- the ride rows a handler saves: replace(snapshot, ...) ----------

  function NewRide(id: Id, rider: Id, trip: Trip, fare: nat, at: nat): Ride {
    Ride(id, rider, None, trip.pickup, trip.dropoff, REQUESTED, Some(fare), None, at, None, 0)
  }

  function Matched(r: Ride, driver: Id): Ride {
    r.(driver := Some(driver), status := MATCHED, version := r.version + 1)
  }

  function Started(r: Ride): Ride {
    r.(status := IN_PROGRESS, version := r.version + 1)
  }

  function Completed(r: Ride, at: nat): Ride {
    r.(status := COMPLETED, fare := r.estimatedFare, completedAt := Some(at), version := r.version + 1)
  }

  function Cancelled(r: Ride): Ride {
    r.(status := CANCELLED, version := r.version + 1)
  }

  // ---------- single calls ----------

  /** RideRepository.save: a full-row replace. */
  function SaveRide(w: World, r: Ride): World {
    w.(rides := w.rides[r.id := r])
  }

  /** The save inside accept_ride, noted in the history. */
  function SaveMatch(w: World, r: Ride, driver: Id): World {
    var earlier := if r.id in w.commits then w.commits[r.id] else [];
    SaveRide(w, Matched(r, driver)).(commits := w.commits[r.id := earlier + [driver]])
  }

  /** The save inside request_ride, with the quote noted in the history. */
  function SaveNew(w: World, r: Ride, q: Quotation): World {
    SaveRide(w, r).(quotes := w.quotes[r.id := q])
  }

  /** DriverRepository.save, the Postgres half. */
  function SaveDriverRow(w: World, d: Driver): World {
    w.(drivers := w.drivers[d.userId := d],
       born := if d.userId in w.drivers then w.born else w.born[d.userId := |w.ratings|])
  }

  /** DriverRepository.save, the Redis half: SADD or SREM drivers:available. */
  function SyncAvailable(w: World, d: Driver): World {
    w.(available := if d.isAvailable then w.available + {d.userId} else w.available - {d.userId})
  }

  function SaveDriver(w: World, d: Driver): World {
    SyncAvailable(SaveDriverRow(w, d), d)
  }

  function SaveUser(w: World, u: User): World {
    w.(users := w.users[u.id := u])
  }

  function AddRating(w: World, r: Rating): World {
    w.(ratings := w.ratings + [r])
  }

  /** exists_by_ride_id_and_from_user_id, and the unique constraint on the pair. */
  predicate HasRated(ratings: seq<Rating>, ride: Id, from: Id) {
    exists i :: 0 <= i < |ratings| && ratings[i].rideId == ride && ratings[i].fromUser == from
  }

  /** exists_by_username, and the unique constraint on it. */
  predicate UsernameTaken(w: World, username: string) {
    exists id :: id in w.users && w.users[id].username == username
  }

  /** exists_by_rider_id_and_status_in(rider, ACTIVE_RIDE_STATUSES). */
  predicate HasActiveRide(w: World, rider: Id) {
    exists id :: id in w.rides && w.rides[id].rider == rider && Active(w.rides[id].status)
  }

  predicate Near(p: Point, q: Point) {
    q.lat - 0.01 <= p.lat <= q.lat + 0.01 && q.lng - 0.01 <= p.lng <= q.lng + 0.01
  }

  /** The ride counts as demand around the point. */
  predicate Waits(r: Ride, at: Point) {
    r.status == REQUESTED && Near(r.pickup, at)
  }

  function WaitingNear(rides: map<Id, Ride>, at: Point): set<Id> {
    set id | id in rides && Waits(rides[id], at)
  }

  /** count_pending_near. */
  function PendingNear(w: World, at: Point): nat { |WaitingNear(w.rides, at)| }

  function PublishRequested(w: World, id: Id): World { w.(requested := w.requested + [id]) }
  function PublishAccepted(w: World, id: Id): World { w.(accepted := w.accepted + [id]) }
  function PublishCompleted(w: World, id: Id): World { w.(completed := w.completed + [id]) }
  function PublishCancelled(w: World, id: Id): World { w.(cancelled := w.cancelled + [id]) }

  function IssueToken(w: World, username: string, role: Role): World {
    w.(tokens := w.tokens + {Token(username, role)})
  }

  /** sse.complete. */
  function CloseStream(w: World, key: Id): World {
    w.(signals := w.signals + [StreamClosed(key)])
  }

  /** update_location's event to the ride's stream. */
  function TellMoved(w: World, r: Ride, at: Point): World {
    w.(signals := w.signals + [DriverMoved(r.id, at, r.dropoff)])
  }

  /** handle_ride_accepted's event to the ride's stream, if its driver is located. */
  function TellEta(w: World, r: Ride): World {
    if r.driver.Some? && r.driver.value in w.located then
      w.(signals := w.signals + [DriverEta(r.id, w.located[r.driver.value], r.pickup)])
    else w
  }

  /** The ride occupies the driver. */
  predicate Holds(rides: map<Id, Ride>, driver: Id, ride: Id) {
    ride in rides && rides[ride].driver == Some(driver) && Occupying(rides[ride].status)
  }

  /** An answer of find_first_by_driver_id_and_status_in, which takes any ride there is. */
  predicate FirstHeld(w: World, driver: Id, held: Option<Id>) {
    if held.Some? then Holds(w.rides, driver, held.value)
    else forall ride :: ride in w.rides ==> !Holds(w.rides, driver, ride)
  }

  /** The surge write of a cache miss, with its history. */
  function StoreSurge(w: World, cell: Cell, pending: nat, free: nat, m: Decimal): World {
    w.(surge := Put(w.surge, cell, m, w.now),
       writes := w.writes + [SurgeWrite(cell, w.now, pending, free, m)])
  }

  // ---------- what the queries see of a save ----------

  /** request_ride's guard after a full-row replace: the row saved is REQUESTED, MATCHED or
      IN_PROGRESS, or another ride of the rider is. */
  lemma ActiveAfterSave(w: World, r: Ride, rider: Id)
    ensures HasActiveRide(SaveRide(w, r), rider) <==>
            || (r.rider == rider && r.status in {REQUESTED, MATCHED, IN_PROGRESS})
            || exists id :: id in w.rides && id != r.id && w.rides[id].rider == rider
                            && w.rides[id].status in {REQUESTED, MATCHED, IN_PROGRESS}
  {
    var rides' := SaveRide(w, r).rides;
    assert r.id in rides';
    if id :| id in w.rides && id != r.id && w.rides[id].rider == rider && Active(w.rides[id].status) {
      assert id in rides' && rides'[id] == w.rides[id];
    }
  }

  /** A full-row replace moves the demand around a point by one at most: the ride leaves the
      count if it was REQUESTED and picked up near, and enters if it is now. */
  lemma PendingAfterSave(w: World, r: Ride, at: Point)
    ensures var near := (p: Point) => -0.01 <= p.lat - at.lat <= 0.01 && -0.01 <= p.lng - at.lng <= 0.01;
            var was := r.id in w.rides && w.rides[r.id].status == REQUESTED && near(w.rides[r.id].pickup);
            var now := r.status == REQUESTED && near(r.pickup);
            PendingNear(SaveRide(w, r), at) == PendingNear(w, at) + (if now then 1 else 0) - (if was then 1 else 0)
  {
    SetAfterSave(w.rides, r, at);
  }

  lemma SetAfterSave(rides: map<Id, Ride>, r: Ride, at: Point)
    ensures |WaitingNear(rides[r.id := r], at)| + (if r.id in rides && Waits(rides[r.id], at) then 1 else 0)
            == |WaitingNear(rides, at)| + (if Waits(r, at) then 1 else 0)
  {
    var before, after := WaitingNear(rides, at), WaitingNear(rides[r.id := r], at);
    SameButOne(rides, r, at);
    if r.id in before {
      assert before == (before - {r.id}) + {r.id};
    } else {
      assert before == before - {r.id};
    }
    if r.id in after {
      assert after == (after - {r.id}) + {r.id};
    } else {
      assert after == after - {r.id};
    }
  }

  /** So no save of a row that is not REQUESTED ever raises the demand anywhere, and one that
      takes a waiting ride off lowers it by one at the ride's own pickup. */
  lemma DemandFalls(w: World, r: Ride, at: Point)
    requires r.status != REQUESTED
    ensures PendingNear(SaveRide(w, r), at) <= PendingNear(w, at)
    ensures r.id in w.rides && w.rides[r.id].status == REQUESTED && w.rides[r.id].pickup == at ==>
              PendingNear(SaveRide(w, r), at) == PendingNear(w, at) - 1
  {
    PendingAfterSave(w, r, at);
  }

  lemma SameButOne(rides: map<Id, Ride>, r: Ride, at: Point)
    ensures WaitingNear(rides[r.id := r], at) - {r.id} == WaitingNear(rides, at) - {r.id}
    ensures r.id in WaitingNear(rides[r.id := r], at) <==> Waits(r, at)
  {
  }

  /** After an insert exactly the inserted pair is added to those that have rated. */
  lemma RatedAfterInsert(ratings: seq<Rating>, r: Rating, ride: Id, from: Id)
    ensures HasRated(ratings + [r], ride, from) <==>
            HasRated(ratings, ride, from) || (r.rideId == ride && r.fromUser == from)
  {
    if HasRated(ratings, ride, from) {
      var i :| 0 <= i < |ratings| && ratings[i].rideId == ride && ratings[i].fromUser == from;
      assert (ratings + [r])[i] == ratings[i];
    }
    assert (ratings + [r])[|ratings|] == r;
  }
}

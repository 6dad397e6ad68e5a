/** Postgres, Redis and Kafka as one mutable object, and the repositories on it
    (repositories/, kafka_producer.py). */
module Stores {
  import opened Models
  import opened Pricing
  import opened Dispatch
  import opened Worlds
  import Contracts
  import SerialCalls

  class Store {
    var rides: map<Id, Ride>
    var drivers: map<Id, Driver>
    var users: map<Id, User>
    var ratings: seq<Rating>
    var available: set<Id>
    var located: map<Id, Point>
    const cache: SurgeCache
    var offers: Offers
    var requested: seq<Id>
    var accepted: seq<Id>
    var completed: seq<Id>
    var cancelled: seq<Id>
    var tokens: set<Token>
    var now: nat
    var signals: seq<Signal>
    // history, as in World
    ghost var commits: map<Id, seq<Id>>
    ghost var writes: seq<SurgeWrite>
    ghost var quotes: map<Id, Quotation>
    ghost var born: map<Id, nat>

    ghost function View(): World
      reads this, cache
    {
      World(rides, drivers, users, ratings, available, located, cache.entries, offers,
            requested, accepted, completed, cancelled, tokens, now, signals, commits, writes, quotes, born)
    }

    constructor (now: nat)
      ensures View() == EmptyWorld.(now := now) && cache.Valid() && fresh(cache)
    {
      rides, drivers, users, ratings := map[], map[], map[], [];
      available, located, offers := {}, map[], map[];
      requested, accepted, completed, cancelled := [], [], [], [];
      tokens := {};
      this.now := now;
      signals := [];
      commits, writes, quotes, born := map[], [], map[], map[];
      cache := new SurgeCache();
    }
  }

  class RideRepository {
    const store: Store

    constructor (store: Store)
      ensures this.store == store
    {
      this.store := store;
    }

    method Save(r: Ride)
      modifies store`rides
      ensures store.View() == SaveRide(old(store.View()), r)
    {
      store.rides := store.rides[r.id := r];
    }

    method FindById(id: Id) returns (r: Option<Ride>)
      ensures r == if id in store.rides then Some(store.rides[id]) else None
    {
      r := if id in store.rides then Some(store.rides[id]) else None;
    }

    method ExistsActiveByRider(rider: Id) returns (found: bool)
      ensures found == HasActiveRide(store.View(), rider) == Contracts.Busy(store.View(), rider)
    {
      SerialCalls.ActiveIsBusy(store.View(), rider);
      found := exists id :: id in store.rides && store.rides[id].rider == rider && Active(store.rides[id].status);
    }

    method CountPendingNear(at: Point) returns (n: nat)
      ensures n == PendingNear(store.View(), at) == Contracts.Demand(store.View(), at)
    {
      SerialCalls.DemandCounted(store.View(), at);
      n := |WaitingNear(store.rides, at)|;
    }

    /** find_first_by_driver_id_and_status_in(driver, MATCHED or IN_PROGRESS). */
    method FindFirstHeld(driver: Id) returns (held: Option<Id>)
      ensures FirstHeld(store.View(), driver, held)
    {
      held := None;
      if exists ride :: ride in store.rides && Holds(store.rides, driver, ride) {
        var ride :| ride in store.rides && Holds(store.rides, driver, ride);
        held := Some(ride);
      }
    }

    /** find_by_status_and_requested_at_before(REQUESTED, now - age), in no particular order. */
    method FindRequestedOlderThan(age: nat) returns (stale: set<Id>)
      ensures stale == set id | id in store.rides && store.rides[id].status == REQUESTED
                                && store.rides[id].requestedAt + age < store.now
    {
      stale := set id | id in store.rides && store.rides[id].status == REQUESTED
                        && store.rides[id].requestedAt + age < store.now;
    }
  }

  /** The calls of the service layer on the stream registry. */
  class Streams {
    const store: Store

    constructor (store: Store)
      ensures this.store == store
    {
      this.store := store;
    }

    method Close(key: Id)
      modifies store`signals
      ensures store.View() == CloseStream(old(store.View()), key)
    {
      store.signals := store.signals + [StreamClosed(key)];
    }

    method Moved(r: Ride, at: Point)
      modifies store`signals
      ensures store.View() == TellMoved(old(store.View()), r, at)
    {
      store.signals := store.signals + [DriverMoved(r.id, at, r.dropoff)];
    }
  }

  class DriverRepository {
    const store: Store

    constructor (store: Store)
      ensures this.store == store
    {
      this.store := store;
    }

    /** The dual write: the Postgres row, then SADD or SREM on the availability set. */
    method Save(d: Driver)
      modifies store`drivers, store`born, store`available
      ensures store.View() == SaveDriver(old(store.View()), d)
    {
      if d.userId !in store.drivers {
        store.born := store.born[d.userId := |store.ratings|];
      }
      store.drivers := store.drivers[d.userId := d];
      if d.isAvailable {
        store.available := store.available + {d.userId};
      } else {
        store.available := store.available - {d.userId};
      }
    }

    method FindById(id: Id) returns (d: Option<Driver>)
      ensures d == if id in store.drivers then Some(store.drivers[id]) else None
    {
      d := if id in store.drivers then Some(store.drivers[id]) else None;
    }

    method SetLocation(user: Id, at: Point)
      modifies store`located
      ensures store.View() == old(store.View()).(located := old(store.located)[user := at])
    {
      store.located := store.located[user := at];
    }

    method ClearLocation(user: Id)
      modifies store`located
      ensures store.View() == old(store.View()).(located := old(store.located) - {user})
    {
      store.located := store.located - {user};
    }
  }

  class UserRepository {
    const store: Store

    constructor (store: Store)
      ensures this.store == store
    {
      this.store := store;
    }

    method Save(u: User)
      modifies store`users
      ensures store.View() == SaveUser(old(store.View()), u)
    {
      store.users := store.users[u.id := u];
    }

    method FindById(id: Id) returns (u: Option<User>)
      ensures u == if id in store.users then Some(store.users[id]) else None
    {
      u := if id in store.users then Some(store.users[id]) else None;
    }

    /** find_by_username; a name has one row at most. */
    method FindByUsername(username: string) returns (u: Option<User>)
      ensures u.Some? ==> exists id :: id in store.users && store.users[id] == u.value && u.value.username == username
      ensures u.None? ==> forall id :: id in store.users ==> store.users[id].username != username
    {
      u := None;
      if id :| id in store.users && store.users[id].username == username {
        u := Some(store.users[id]);
      }
    }

    method ExistsByUsername(username: string) returns (found: bool)
      ensures found == UsernameTaken(store.View(), username)
    {
      found := exists id :: id in store.users && store.users[id].username == username;
    }
  }

  class RatingRepository {
    const store: Store

    constructor (store: Store)
      ensures this.store == store
    {
      this.store := store;
    }

    method Save(r: Rating)
      modifies store`ratings
      ensures store.View() == AddRating(old(store.View()), r)
    {
      store.ratings := store.ratings + [r];
    }

    method Exists(ride: Id, from: Id) returns (found: bool)
      ensures found == HasRated(store.ratings, ride, from)
    {
      found := exists i :: 0 <= i < |store.ratings|
                           && store.ratings[i].rideId == ride && store.ratings[i].fromUser == from;
    }
  }

  class Producer {
    const store: Store

    constructor (store: Store)
      ensures this.store == store
    {
      this.store := store;
    }

    method RideRequested(id: Id)
      modifies store`requested
      ensures store.View() == PublishRequested(old(store.View()), id)
    {
      store.requested := store.requested + [id];
    }

    method RideAccepted(id: Id)
      modifies store`accepted
      ensures store.View() == PublishAccepted(old(store.View()), id)
    {
      store.accepted := store.accepted + [id];
    }

    method RideCompleted(id: Id)
      modifies store`completed
      ensures store.View() == PublishCompleted(old(store.View()), id)
    {
      store.completed := store.completed + [id];
    }

    method RideCancelled(id: Id)
      modifies store`cancelled
      ensures store.View() == PublishCancelled(old(store.View()), id)
    {
      store.cancelled := store.cancelled + [id];
    }
  }
}

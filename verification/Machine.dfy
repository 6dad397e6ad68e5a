/** The service as it really runs: many coroutines on one event loop. A task is a handler
    stopped before one of its awaits, with the rows it has read so far; one step performs one
    repository, Redis or Kafka call and runs on to the next await. Only accept_ride holds a
    lock. A run is any sequence of actions. */
module Machine {
  import opened Models
  import opened Surge
  import opened Fares
  import opened Pricing
  import opened Dispatch
  import opened Worlds
  import Serial

  /** What a caller of mark_*_by_id or DriverRepository.save goes on to do. */
  datatype Resume =
    | ToAcceptSave(snapshot: Ride, driver: Id)
    | ToCompletePublish(saved: Ride)
    | ToCancelSave(row: Ride)
    | ToRateUser(to: Id, score: nat)
    | ToUpgrade(user: User)
    | ToClose(driver: Id)
    | ToFinish

  datatype Task =
    | Done(outcome: Outcome)
    // RideService.request_ride
    | RequestCheck(rider: Id, trip: Trip)
    | RequestPending(rider: Id, trip: Trip, at: nat)
    | RequestSearch(rider: Id, trip: Trip, at: nat, pending: nat)
    | RequestFilter(rider: Id, trip: Trip, at: nat, pending: nat, reply: seq<Hit>)
    | RequestCacheGet(rider: Id, trip: Trip, at: nat, pending: nat, free: nat)
    | RequestCacheSet(rider: Id, trip: Trip, at: nat, pending: nat, free: nat)
    | RequestSave(rider: Id, trip: Trip, at: nat, multiplier: Decimal, servedAt: nat)
    | RequestPublish(saved: Ride)
    // RideService.accept_ride; all but the first hold the lock
    | AcceptWait(ride: Id, driver: Id)
    | AcceptReadRide(ride: Id, driver: Id)
    | AcceptReadDriver(snapshot: Ride, driver: Id)
    | AcceptSave(snapshot: Ride, driver: Id)
    | AcceptPublish(saved: Ride)
    | AcceptRelease(outcome: Outcome)
    // DriverService.mark_*_by_id, and the two halves of DriverRepository.save
    | MarkRead(driver: Id, flag: bool, resume: Resume)
    | DriverSave(profile: Driver, resume: Resume)
    | DriverSync(profile: Driver, resume: Resume)
    // start, complete, cancel
    | StartRead(ride: Id, driver: Id)
    | StartSave(row: Ride)
    | CompleteRead(ride: Id, driver: Id)
    | CompleteSave(row: Ride, driver: Id)
    | CompletePublish(saved: Ride)
    | CancelRead(ride: Id, user: Id)
    | CancelSave(row: Ride)
    | CancelPublish(saved: Ride)
    // DriverService.go_online, go_offline, update_location
    | OnlineProfile(user: Id, place: Point)
    | OnlineLocate(user: Id, place: Point)
    | OfflineProfile(user: Id)
    | OfflineLocate(user: Id)
    | LocationProfile(user: Id, place: Point)
    | LocationLocate(user: Id, place: Point)
    | LocationRide(user: Id, place: Point)
    // RatingService.rate
    | RateRead(ride: Id, from: Id, given: int)
    | RateExists(ride: Id, from: Id, to: Id, score: nat)
    | RateInsert(ride: Id, from: Id, to: Id, score: nat)
    | RateDriver(to: Id, score: nat)
    | RateUser(to: Id, score: nat)
    | RateUserSave(account: User)
    // routers/driver.py register, routers/auth.py
    | RegisterCheck(account: User, vehicle: string, plate: string)
    | UpgradeUser(account: User)
    | SignUpCheck(username: string)
    | SignUpSave(username: string)
    | LoginRead(caller: Id)
    | SwitchRead(caller: Id)
    | Issue(username: string, role: Role)
    // stale_ride_retry.retry_once
    | RetryFind
    | RetryPublish(ids: seq<Id>)

  /** The one serial Kafka consumer, between messages or inside a handler. */
  datatype Consumer =
    | Idle
    | FanRead(id: Id)
    | FanSearch(ride: Ride)
    | FanFilter(ride: Ride, reply: seq<Hit>)
    | FanRecord(ride: Ride, nearby: seq<Id>)
    | FanPublish(ride: Ride, todo: seq<Id>)
    | TellRead(id: Id)
    | TellLocate(ride: Ride)
    | TellMembers(ride: Ride)
    | TellDelete(id: Id)
    | CompletedRead(id: Id)
    | CancelledRead(id: Id)

  /** What the outside supplies to a step: a GEOSEARCH reply, a new UUID, a row order. */
  datatype Input = Input(reply: seq<Hit>, uuid: Id, ids: seq<Id>)

  /** The task is inside accept_ride's lock. */
  predicate Critical(t: Task) {
    t.AcceptReadRide? || t.AcceptReadDriver? || t.AcceptSave? || t.AcceptPublish? || t.AcceptRelease?
    || ((t.MarkRead? || t.DriverSave? || t.DriverSync?) && t.resume.ToAcceptSave?)
  }

  // ---------- one step of a task ----------

  function StepRequest(w: World, t: Task, input: Input): (World, Task) {
    match t
    case RequestCheck(rider, trip) =>
      (w, if HasActiveRide(w, rider) then Done(Refused(409)) else RequestPending(rider, trip, w.now))
    case RequestPending(rider, trip, at) =>
      (w, RequestSearch(rider, trip, at, PendingNear(w, trip.pickup)))
    case RequestSearch(rider, trip, at, pending) =>
      (w, if Answers(w.located.Keys, SURGE_SEARCH_RADIUS_KM, input.reply)
          then RequestFilter(rider, trip, at, pending, input.reply) else t)
    case RequestFilter(rider, trip, at, pending, reply) =>
      (w, RequestCacheGet(rider, trip, at, pending, |KeepAvailable(reply, w.available)|))
    case RequestCacheGet(rider, trip, at, pending, free) =>
      var cached := Lookup(w.surge, trip.cell, w.now);
      (w, if !Live(w.surge, trip.cell, w.now) then RequestCacheSet(rider, trip, at, pending, free)
          else if cached.None? then Done(Failed)
          else RequestSave(rider, trip, at, cached.value, w.now))
    case RequestCacheSet(rider, trip, at, pending, free) =>
      var m := ComputeMultiplier(pending, free);
      (StoreSurge(w, trip.cell, pending, free, m), RequestSave(rider, trip, at, m, w.now))
    case RequestSave(rider, trip, at, m, servedAt) =>
      if input.uuid in w.rides || !ValidTrip(trip) then (w, t)
      else
        var ride := NewRide(input.uuid, rider, trip, FareCents(trip.distance, m), at);
        (SaveNew(w, ride, Quotation(trip, m, servedAt)), RequestPublish(ride))
    case RequestPublish(saved) => (PublishRequested(w, saved.id), Done(Granted(saved)))
    case _ => (w, t)
  }

  function StepAccept(w: World, t: Task): (World, Task) {
    match t
    case AcceptReadRide(ride, driver) =>
      (w, if ride !in w.rides then AcceptRelease(Refused(404))
          else if w.rides[ride].status != REQUESTED then AcceptRelease(Refused(409))
          else AcceptReadDriver(w.rides[ride], driver))
    case AcceptReadDriver(snapshot, driver) =>
      (w, if driver !in w.drivers then AcceptRelease(Refused(403))
          else if !w.drivers[driver].isAvailable then AcceptRelease(Refused(409))
          else MarkRead(driver, false, ToAcceptSave(snapshot, driver)))
    case AcceptSave(snapshot, driver) =>
      (SaveMatch(w, snapshot, driver), AcceptPublish(Matched(snapshot, driver)))
    case AcceptPublish(saved) => (PublishAccepted(w, saved.id), AcceptRelease(Granted(saved)))
    case AcceptRelease(outcome) => (w, Done(outcome))
    case _ => (w, t)
  }

  function Continue(k: Resume): Task {
    match k
    case ToAcceptSave(snapshot, driver) => AcceptSave(snapshot, driver)
    case ToCompletePublish(saved) => CompletePublish(saved)
    case ToCancelSave(row) => CancelSave(row)
    case ToRateUser(to, score) => RateUser(to, score)
    case ToUpgrade(user) => UpgradeUser(user)
    case ToClose(_) => Done(Finished)
    case ToFinish => Done(Finished)
  }

  /** What happens before the next await once a driver row is saved: go_offline closes the
      driver's stream. */
  function Resumed(w: World, k: Resume): World {
    if k.ToClose? then CloseStream(w, k.driver) else w
  }

  function StepMark(w: World, t: Task): (World, Task) {
    match t
    case MarkRead(driver, flag, k) =>
      (w, if driver in w.drivers then DriverSave(w.drivers[driver].(isAvailable := flag), k)
          else if k.ToAcceptSave? then AcceptRelease(Refused(404))
          else Done(Refused(404)))
    case DriverSave(row, k) => (SaveDriverRow(w, row), DriverSync(row, k))
    case DriverSync(row, k) => (Resumed(SyncAvailable(w, row), k), Continue(k))
    case _ => (w, t)
  }

  function StepLifecycle(w: World, t: Task): (World, Task) {
    match t
    case StartRead(ride, driver) =>
      (w, if ride !in w.rides then Done(Refused(404))
          else if w.rides[ride].status != MATCHED then Done(Refused(409))
          else if w.rides[ride].driver != Some(driver) then Done(Refused(403))
          else StartSave(Started(w.rides[ride])))
    case StartSave(row) => (SaveRide(w, row), Done(Granted(row)))
    case CompleteRead(ride, driver) =>
      (w, if ride !in w.rides then Done(Refused(404))
          else if w.rides[ride].status != IN_PROGRESS then Done(Refused(409))
          else if w.rides[ride].driver != Some(driver) then Done(Refused(403))
          else CompleteSave(Completed(w.rides[ride], w.now), driver))
    case CompleteSave(row, driver) => (SaveRide(w, row), MarkRead(driver, true, ToCompletePublish(row)))
    case CompletePublish(saved) => (PublishCompleted(w, saved.id), Done(Granted(saved)))
    case CancelRead(ride, user) =>
      (w, if ride !in w.rides then Done(Refused(404))
          else if w.rides[ride].status in {IN_PROGRESS, COMPLETED} then Done(Refused(409))
          else if w.rides[ride].rider != user && w.rides[ride].driver != Some(user) then Done(Refused(403))
          else if w.rides[ride].driver.Some? then
            MarkRead(w.rides[ride].driver.value, true, ToCancelSave(Cancelled(w.rides[ride])))
          else CancelSave(Cancelled(w.rides[ride])))
    case CancelSave(row) => (SaveRide(w, row), CancelPublish(row))
    case CancelPublish(saved) => (PublishCancelled(w, saved.id), Done(Granted(saved)))
    case _ => (w, t)
  }

  /** The row that .first() takes. */
  function First(ids: seq<Id>): Option<Id> {
    if ids == [] then None else Some(ids[0])
  }

  function StepDriver(w: World, t: Task, input: Input): (World, Task) {
    match t
    case OnlineProfile(user, place) =>
      (w, if user in w.drivers then OnlineLocate(user, place) else Done(Refused(404)))
    case OnlineLocate(user, place) =>
      (w.(located := w.located[user := place]), MarkRead(user, true, ToFinish))
    case OfflineProfile(user) =>
      (w, if user in w.drivers then OfflineLocate(user) else Done(Refused(404)))
    case OfflineLocate(user) => (w.(located := w.located - {user}), MarkRead(user, false, ToClose(user)))
    case LocationProfile(user, place) =>
      (w, if user in w.drivers then LocationLocate(user, place) else Done(Refused(404)))
    case LocationLocate(user, place) => (w.(located := w.located[user := place]), LocationRide(user, place))
    case LocationRide(user, place) =>
      var held := First(input.ids);
      if !FirstHeld(w, user, held) then (w, t)
      else (if held.Some? then TellMoved(w, w.rides[held.value], place) else w, Done(Finished))
    case _ => (w, t)
  }

  function StepRate(w: World, t: Task): (World, Task) {
    match t
    case RateRead(ride, from, score) =>
      (w, if !(1 <= score <= 5) then Done(Refused(400))
          else if ride !in w.rides then Done(Refused(404))
          else if w.rides[ride].status != COMPLETED then Done(Refused(409))
          else if Serial.Ratee(w.rides[ride], from).None? then Done(Serial.RefusedRatee(w.rides[ride], from))
          else RateExists(ride, from, Serial.Ratee(w.rides[ride], from).value, score))
    case RateExists(ride, from, to, score) =>
      (w, if HasRated(w.ratings, ride, from) then Done(Refused(409)) else RateInsert(ride, from, to, score))
    case RateInsert(ride, from, to, score) =>
      // the unique constraint stops a second insert that passed the check
      if HasRated(w.ratings, ride, from) then (w, Done(Failed))
      else (AddRating(w, Rating(ride, from, to, score)), RateDriver(to, score))
    case RateDriver(to, score) =>
      (w, if to in w.drivers then DriverSave(Serial.RatedDriver(w.drivers[to], score), ToRateUser(to, score))
          else RateUser(to, score))
    case RateUser(to, score) =>
      (w, if to in w.users then RateUserSave(Serial.RatedUser(w.users[to], score)) else Done(Finished))
    case RateUserSave(user) => (SaveUser(w, user), Done(Finished))
    case _ => (w, t)
  }

  function StepAccount(w: World, t: Task, input: Input): (World, Task) {
    match t
    case RegisterCheck(user, vehicle, plate) =>
      (w, if user.id in w.drivers then Done(Refused(409))
          else DriverSave(Serial.NewDriver(user.id, vehicle, plate), ToUpgrade(user.(role := DRIVER))))
    case UpgradeUser(user) => (SaveUser(w, user), Issue(user.username, DRIVER))
    case SignUpCheck(username) =>
      (w, if UsernameTaken(w, username) then Done(Refused(409)) else SignUpSave(username))
    case SignUpSave(username) =>
      if input.uuid in w.users then (w, t)
      // the unique constraint on usernames
      else if UsernameTaken(w, username) then (w, Done(Failed))
      else (SaveUser(w, User(input.uuid, username, RIDER, None, 0)), Issue(username, RIDER))
    case LoginRead(caller) =>
      (w, if caller in w.users then Issue(w.users[caller].username, w.users[caller].role)
          else Done(Refused(401)))
    case SwitchRead(caller) =>
      (w, if caller !in w.users then Done(Refused(401))
          else if w.users[caller].role != DRIVER then Done(Refused(403))
          else Issue(w.users[caller].username, DRIVER))
    case Issue(username, role) => (IssueToken(w, username, role), Done(Finished))
    case _ => (w, t)
  }

  /** REQUESTED and older than RETRY_CUTOFF, two minutes. */
  predicate Unaccepted(w: World, id: Id) {
    id in w.rides && w.rides[id].status == REQUESTED && w.rides[id].requestedAt + 120 < w.now
  }

  /** The rows find_by_status_and_requested_at_before gives retry_once, in some order. */
  predicate Stale(w: World, ids: seq<Id>) {
    && (forall i, j :: 0 <= i < j < |ids| ==> ids[i] != ids[j])
    && (forall i :: 0 <= i < |ids| ==> Unaccepted(w, ids[i]))
    && (forall id :: id in w.rides && Unaccepted(w, id) ==> id in ids)
  }

  function StepRetry(w: World, t: Task, input: Input): (World, Task) {
    match t
    case RetryFind => (w, if Stale(w, input.ids) then RetryPublish(input.ids) else t)
    case RetryPublish(ids) =>
      if ids == [] then (w, Done(Finished)) else (PublishRequested(w, ids[0]), RetryPublish(ids[1..]))
    case _ => (w, t)
  }

  predicate IsRequest(t: Task) {
    t.RequestCheck? || t.RequestPending? || t.RequestSearch? || t.RequestFilter?
    || t.RequestCacheGet? || t.RequestCacheSet? || t.RequestSave? || t.RequestPublish?
  }

  predicate IsAccept(t: Task) {
    t.AcceptReadRide? || t.AcceptReadDriver? || t.AcceptSave? || t.AcceptPublish? || t.AcceptRelease?
  }

  predicate IsMark(t: Task) { t.MarkRead? || t.DriverSave? || t.DriverSync? }

  predicate IsLifecycle(t: Task) {
    t.StartRead? || t.StartSave? || t.CompleteRead? || t.CompleteSave? || t.CompletePublish?
    || t.CancelRead? || t.CancelSave? || t.CancelPublish?
  }

  predicate IsDriver(t: Task) {
    t.OnlineProfile? || t.OnlineLocate? || t.OfflineProfile? || t.OfflineLocate?
    || t.LocationProfile? || t.LocationLocate? || t.LocationRide?
  }

  predicate IsRate(t: Task) {
    t.RateRead? || t.RateExists? || t.RateInsert? || t.RateDriver? || t.RateUser? || t.RateUserSave?
  }

  predicate IsAccount(t: Task) {
    t.RegisterCheck? || t.UpgradeUser? || t.SignUpCheck? || t.SignUpSave? || t.LoginRead?
    || t.SwitchRead? || t.Issue?
  }

  /** One step of any task but a finished one or one waiting for the lock. */
  function StepTask(w: World, t: Task, input: Input): (World, Task) {
    if IsRequest(t) then StepRequest(w, t, input)
    else if IsAccept(t) then StepAccept(w, t)
    else if IsMark(t) then StepMark(w, t)
    else if IsLifecycle(t) then StepLifecycle(w, t)
    else if IsDriver(t) then StepDriver(w, t, input)
    else if IsRate(t) then StepRate(w, t)
    else if IsAccount(t) then StepAccount(w, t, input)
    else StepRetry(w, t, input)
  }

  // ---------- one step of the consumer ----------

  function DriversIn(hits: seq<Hit>): seq<Id> {
    seq(|hits|, i requires 0 <= i < |hits| => hits[i].driver)
  }

  function StepConsumer(w: World, c: Consumer, input: Input): (World, Consumer) {
    match c
    case Idle => (w, Idle)
    case FanRead(id) =>
      (w, if id in w.rides && w.rides[id].status == REQUESTED then FanSearch(w.rides[id]) else Idle)
    case FanSearch(ride) =>
      (w, if Answers(w.located.Keys, DEFAULT_SEARCH_RADIUS_KM, input.reply) then FanFilter(ride, input.reply) else c)
    case FanFilter(ride, reply) =>
      var nearby := DriversIn(KeepAvailable(reply, w.available));
      (w, if nearby == [] then Idle else FanRecord(ride, nearby))
    case FanRecord(ride, nearby) =>
      (w.(offers := Record(w.offers, ride.id, nearby, w.now)), FanPublish(ride, nearby))
    case FanPublish(ride, todo) => (w, if todo == [] then Idle else FanPublish(ride, todo[1..]))
    case TellRead(id) => (w, if id in w.rides then TellLocate(w.rides[id]) else Idle)
    case TellLocate(ride) => (TellEta(w, ride), TellMembers(ride))
    case TellMembers(ride) => (w, TellDelete(ride.id))
    case TellDelete(id) => (w.(offers := Retract(w.offers, id)), Idle)
    case CompletedRead(id) =>
      (if id in w.rides && w.rides[id].status == COMPLETED then CloseStream(w, id) else w, Idle)
    case CancelledRead(id) => (if id in w.rides then CloseStream(w, id) else w, Idle)
  }

  // ---------- who may call what ----------

  datatype Call =
    | CallSignUp(username: string)
    | CallLogin(user: Id)
    | CallSwitch(token: Token, user: Id, mode: Role)
    | CallRegisterDriver(token: Token, user: Id, vehicle: string, plate: string)
    | CallRequest(token: Token, user: Id, trip: Trip)
    | CallAccept(token: Token, user: Id, ride: Id)
    | CallStart(token: Token, user: Id, ride: Id)
    | CallComplete(token: Token, user: Id, ride: Id)
    | CallCancel(token: Token, user: Id, ride: Id)
    | CallOnline(token: Token, user: Id, place: Point)
    | CallOffline(token: Token, user: Id)
    | CallLocation(token: Token, user: Id, place: Point)
    | CallRate(token: Token, user: Id, ride: Id, score: int)
    | CallRetry

  /** get_current_auth and resolve_current_user: an issued token naming a stored user. */
  predicate Authenticated(w: World, token: Token, user: Id) {
    token in w.tokens && user in w.users && w.users[user].username == token.username
  }

  /** require_role(DRIVER): only a DRIVER claim gives the authority. */
  predicate InDriverMode(token: Token) { token.role == DRIVER }

  /** The task an admitted call starts as. */
  function Admit(w: World, call: Call): Option<Task> {
    match call
    case CallSignUp(username) => Some(SignUpCheck(username))
    case CallLogin(user) => if user in w.users then Some(LoginRead(user)) else None
    case CallSwitch(token, user, mode) =>
      if !Authenticated(w, token, user) then None
      else if mode == DRIVER then Some(SwitchRead(user))
      else Some(Issue(token.username, RIDER))
    case CallRegisterDriver(token, user, vehicle, plate) =>
      if Authenticated(w, token, user) then Some(RegisterCheck(w.users[user], vehicle, plate)) else None
    case CallRequest(token, user, trip) =>
      if Authenticated(w, token, user) && ValidTrip(trip) then Some(RequestCheck(user, trip)) else None
    case CallAccept(token, user, ride) =>
      if Authenticated(w, token, user) && InDriverMode(token) then Some(AcceptWait(ride, user)) else None
    case CallStart(token, user, ride) =>
      if Authenticated(w, token, user) && InDriverMode(token) then Some(StartRead(ride, user)) else None
    case CallComplete(token, user, ride) =>
      if Authenticated(w, token, user) && InDriverMode(token) then Some(CompleteRead(ride, user)) else None
    case CallCancel(token, user, ride) =>
      if Authenticated(w, token, user) then Some(CancelRead(ride, user)) else None
    case CallOnline(token, user, place) =>
      if Authenticated(w, token, user) && InDriverMode(token) then Some(OnlineProfile(user, place)) else None
    case CallOffline(token, user) =>
      if Authenticated(w, token, user) && InDriverMode(token) then Some(OfflineProfile(user)) else None
    case CallLocation(token, user, place) =>
      if Authenticated(w, token, user) && InDriverMode(token) then Some(LocationProfile(user, place)) else None
    case CallRate(token, user, ride, score) =>
      if Authenticated(w, token, user) then Some(RateRead(ride, user, score)) else None
    case CallRetry => Some(RetryFind)
  }

  // ---------- runs ----------

  datatype Topic = RequestedTopic | AcceptedTopic | CompletedTopic | CancelledTopic

  /** The offer_cancelled events of one handled ride-accepted message. */
  datatype Told = Told(ride: Id, drivers: set<Id>, at: nat)

  /** History of the consumer that no code reads: what reached the dispatched: sets, the
      offers published and the retractions emitted. */
  datatype Log = Log(handled: seq<Handled>, published: seq<Offer>, told: seq<Told>)

  /** The dispatched drivers but the ride's own. */
  function Others(dispatched: set<Id>, winner: Option<Id>): set<Id> {
    set d | d in dispatched && Some(d) != winner
  }

  function Note(log: Log, w: World, c: Consumer): Log {
    match c
    case FanRecord(ride, nearby) => log.(handled := log.handled + [FannedOut(ride.id, w.now, nearby)])
    case FanPublish(ride, todo) =>
      if todo == [] then log else log.(published := log.published + [Offer(todo[0], ride.id)])
    case TellMembers(ride) =>
      log.(told := log.told + [Told(ride.id, Others(Members(w.offers, ride.id, w.now), ride.driver), w.now)])
    case TellDelete(id) => log.(handled := log.handled + [Accepted(id, w.now)])
    case _ => log
  }

  /** Tasks by number, the lock's holder, the lock's past holders, and the consumer. */
  datatype Config = Config(
    w: World, tasks: seq<Task>, lock: Option<nat>, order: seq<nat>, consumer: Consumer, log: Log)

  datatype Action =
    | Spawn(call: Call)
    | Step(task: nat, input: Input)
    | Abort(task: nat)
    | Consume(topic: Topic, index: nat)
    | Handle(handled: Input)
    | AbortHandler
    | Tick(seconds: nat)

  const Start := Config(EmptyWorld, [], None, [], Idle, Log([], [], []))

  /** Task i goes from t to t'; leaving the lock's block releases it. */
  function Advance(c: Config, i: nat, w': World, t': Task): Config
    requires i < |c.tasks|
  {
    c.(w := w', tasks := c.tasks[i := t'],
       lock := if Critical(c.tasks[i]) && !Critical(t') then None else c.lock)
  }

  /** Task i, waiting for the lock, takes it if it is free. */
  function Acquire(c: Config, i: nat): Config
    requires i < |c.tasks| && c.tasks[i].AcceptWait?
  {
    if c.lock.Some? then c
    else c.(tasks := c.tasks[i := AcceptReadRide(c.tasks[i].ride, c.tasks[i].driver)],
            lock := Some(i), order := c.order + [i])
  }

  /** Messages may be delivered again and in any order across topics. */
  function Deliver(c: Config, topic: Topic, index: nat): Consumer {
    match topic
    case RequestedTopic => if index < |c.w.requested| then FanRead(c.w.requested[index]) else Idle
    case AcceptedTopic => if index < |c.w.accepted| then TellRead(c.w.accepted[index]) else Idle
    case CompletedTopic => if index < |c.w.completed| then CompletedRead(c.w.completed[index]) else Idle
    case CancelledTopic => if index < |c.w.cancelled| then CancelledRead(c.w.cancelled[index]) else Idle
  }

  function Next(c: Config, a: Action): Config {
    match a
    case Spawn(call) =>
      var t := Admit(c.w, call);
      if t.Some? then c.(tasks := c.tasks + [t.value]) else c
    case Step(i, input) =>
      if i >= |c.tasks| then c
      else if c.tasks[i].AcceptWait? then Acquire(c, i)
      else Advance(c, i, StepTask(c.w, c.tasks[i], input).0, StepTask(c.w, c.tasks[i], input).1)
    case Abort(i) => if i >= |c.tasks| then c else Advance(c, i, c.w, Done(Failed))
    case Consume(topic, index) =>
      if c.consumer.Idle? then c.(consumer := Deliver(c, topic, index)) else c
    case Handle(input) =>
      c.(w := StepConsumer(c.w, c.consumer, input).0, consumer := StepConsumer(c.w, c.consumer, input).1,
         log := Note(c.log, c.w, c.consumer))
    case AbortHandler => c.(consumer := Idle)
    case Tick(seconds) => c.(w := c.w.(now := c.w.now + seconds))
  }

  /** The configuration after a run of actions. */
  function Exec(c: Config, actions: seq<Action>): Config {
    if actions == [] then c
    else Next(Exec(c, actions[..|actions| - 1]), actions[|actions| - 1])
  }

  lemma OneAction(c: Config, a: Action)
    ensures Exec(c, [a]) == Next(c, a)
  {
    hide Next;
    assert [a][..0] == [];
    assert Exec(c, []) == c;
  }

  lemma {:induction false} ExecConcat(c: Config, first: seq<Action>, more: seq<Action>)
    ensures Exec(c, first + more) == Exec(Exec(c, first), more)
  {
    if more == [] {
      assert first + more == first;
    } else {
      hide Next;
      assert (first + more)[..|first + more| - 1] == first + more[..|more| - 1];
      ExecConcat(c, first, more[..|more| - 1]);
    }
  }
}

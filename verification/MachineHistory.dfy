/** Where the data that handlers work on comes from. Between reading and saving, other handlers
    run; so what a task holds, a row saves or a table records was true of the stores at some
    earlier moment of the run. These are the facts, written out, and the moments. */
module MachineHistory {
  import opened Models
  import opened Surge
  import opened Fares
  import opened Pricing
  import opened Dispatch
  import opened Worlds
  import opened RideRows
  import opened Machine
  import opened MachineFrames
  import Contracts
  import Rides = MachineRides
  import Saves = MachineSaves
  import SerialCalls
  import SerialRatings
  import Serial

  // ---------- facts and moments ----------

  datatype Fact =
    | Free(rider: Id, at: nat)
    | Demanded(around: Point, pending: nat)
    | Answered(reply: seq<Hit>)
    | Supplied(reply: seq<Hit>, free: nat)
    | Moved(row: Ride)
    | Judged(rating: Rating)

  /** The fact is true of the stores. */
  predicate Saw(w: World, f: Fact) {
    match f
    // the rider has no ride REQUESTED, MATCHED or IN_PROGRESS, and this is the time
    case Free(rider, at) => !Contracts.Busy(w, rider) && w.now == at
    // so many REQUESTED rides are picked up within 0.01 degrees
    case Demanded(around, pending) => pending == Contracts.Demand(w, around)
    // the search for drivers within 3 km can answer this
    case Answered(reply) => Answers(w.located.Keys, 3.0, reply)
    // so many of the drivers answered are in the availability set
    case Supplied(reply, free) => free == Contracts.Supply(w, reply)
    // the row is one transition from the stored one; a completed one is of this time
    case Moved(row) =>
      row.id in w.rides && Transition(w.rides[row.id], row)
      && (row.status == COMPLETED ==> row.completedAt == Some(w.now))
    // the rating is of a completed ride, by one participant of the other
    case Judged(r) =>
      r.rideId in w.rides && w.rides[r.rideId].status == COMPLETED && 1 <= r.score <= 5
      && SerialRatings.RatesTheOther(r, w.rides[r.rideId])
  }

  /** The stores after the first k actions. */
  function Moment(actions: seq<Action>, k: nat): World
    requires k <= |actions|
  {
    Exec(Start, actions[..k]).w
  }

  /** At some moment of the run the fact was true. */
  predicate Was(actions: seq<Action>, f: Fact) {
    exists k :: 0 <= k <= |actions| && Saw(Moment(actions, k), f)
  }

  lemma WasStays(actions: seq<Action>, a: Action, f: Fact)
    requires Was(actions, f)
    ensures Was(actions + [a], f)
  {
    hide Saw, Exec;
    var k :| 0 <= k <= |actions| && Saw(Moment(actions, k), f);
    assert (actions + [a])[..k] == actions[..k];
    assert Saw(Moment(actions + [a], k), f);
  }

  /** What is true before an action was true. */
  lemma SeenNow(actions: seq<Action>, a: Action, f: Fact)
    requires Saw(Exec(Start, actions).w, f)
    ensures Was(actions + [a], f)
  {
    hide Saw, Exec;
    assert (actions + [a])[..|actions|] == actions;
    assert Saw(Moment(actions + [a], |actions|), f);
  }

  // ---------- the facts a task relies on ----------

  /** A row about to be saved is one transition from the row that was read. */
  function ResumeFacts(k: Resume): set<Fact> {
    match k
    case ToAcceptSave(snapshot, driver) => {Moved(Matched(snapshot, driver))}
    case ToCancelSave(row) => {Moved(row)}
    case _ => {}
  }

  function Facts(t: Task): set<Fact> {
    match t
    case RequestPending(rider, _, at) => {Free(rider, at)}
    case RequestSearch(rider, trip, at, pending) => {Free(rider, at), Demanded(trip.pickup, pending)}
    case RequestFilter(rider, trip, at, pending, reply) =>
      {Free(rider, at), Demanded(trip.pickup, pending), Answered(reply)}
    case RequestCacheGet(rider, trip, at, pending, _) => {Free(rider, at), Demanded(trip.pickup, pending)}
    case RequestCacheSet(rider, trip, at, pending, _) => {Free(rider, at), Demanded(trip.pickup, pending)}
    case RequestSave(rider, _, at, _, _) => {Free(rider, at)}
    case AcceptReadDriver(snapshot, driver) => {Moved(Matched(snapshot, driver))}
    case AcceptSave(snapshot, driver) => {Moved(Matched(snapshot, driver))}
    case MarkRead(_, _, k) => ResumeFacts(k)
    case DriverSave(_, k) => ResumeFacts(k)
    case DriverSync(_, k) => ResumeFacts(k)
    case StartSave(row) => {Moved(row)}
    case CompleteSave(row, _) => {Moved(row)}
    case CancelSave(row) => {Moved(row)}
    case RateExists(ride, from, to, score) => {Judged(Rating(ride, from, to, score))}
    case RateInsert(ride, from, to, score) => {Judged(Rating(ride, from, to, score))}
    case _ => {}
  }

  lemma RequestFacts(w: World, t: Task, input: Input, f: Fact)
    requires IsRequest(t) && f in Facts(StepRequest(w, t, input).1)
    ensures f in Facts(t) || Saw(w, f)
  {
    hide HasActiveRide, PendingNear, KeepAvailable, Answers, Live, Lookup, ComputeMultiplier, FareCents, StoreSurge,
      SaveNew, PublishRequested, Contracts.Busy, Contracts.Demand;
    if t.RequestCheck? {
      SerialCalls.ActiveIsBusy(w, t.rider);
    } else if t.RequestPending? {
      SerialCalls.DemandCounted(w, t.trip.pickup);
    }
  }

  lemma AcceptFacts(w: World, t: Task, f: Fact)
    requires Rides.WorldOK(w) && IsAccept(t) && f in Facts(StepAccept(w, t).1)
    ensures f in Facts(t) || Saw(w, f)
  {
    hide SaveMatch, PublishAccepted, Transition, Rides.WorldOK;
    if t.AcceptReadRide? && t.ride in w.rides {
      Rides.ReadId(w, t.ride);
      SavesTransition(w.rides[t.ride], t.driver, w.now);
    }
  }

  lemma MarkFacts(w: World, t: Task, f: Fact)
    requires IsMark(t) && f in Facts(StepMark(w, t).1)
    ensures f in Facts(t)
  {
    hide SaveDriverRow, SyncAvailable, Resumed;
  }

  lemma LifecycleFacts(w: World, t: Task, f: Fact)
    requires Rides.WorldOK(w) && IsLifecycle(t) && f in Facts(StepLifecycle(w, t).1)
    ensures f in Facts(t) || Saw(w, f)
  {
    hide SaveRide, PublishCompleted, PublishCancelled, Transition, Rides.WorldOK;
    if (t.StartRead? || t.CompleteRead? || t.CancelRead?) && t.ride in w.rides {
      Rides.ReadId(w, t.ride);
      SavesTransition(w.rides[t.ride], 0, w.now);
    }
  }

  lemma RateFacts(w: World, t: Task, f: Fact)
    requires IsRate(t) && f in Facts(StepRate(w, t).1)
    ensures f in Facts(t) || Saw(w, f)
  {
    hide HasRated, Serial.RatedDriver, Serial.RatedUser, AddRating, SaveUser;
  }

  lemma NoFacts(t: Task)
    requires Accounting(t) || Placing(t) || t.RetryFind? || t.RetryPublish?
    ensures Facts(t) == {}
  {
  }

  /** Every fact a task goes on with it had, or has just seen. */
  lemma StepFacts(w: World, t: Task, input: Input, f: Fact)
    requires Rides.WorldOK(w) && !t.AcceptWait? && f in Facts(StepTask(w, t, input).1)
    ensures f in Facts(t) || Saw(w, f)
  {
    hide Rides.WorldOK, Facts, Saw, StepRequest, StepAccept, StepMark, StepLifecycle, StepDriver, StepRate,
      StepAccount, StepRetry;
    if IsRequest(t) {
      RequestFacts(w, t, input, f);
    } else if IsAccept(t) {
      AcceptFacts(w, t, f);
    } else if IsMark(t) {
      MarkFacts(w, t, f);
    } else if IsLifecycle(t) {
      LifecycleFacts(w, t, f);
    } else if IsRate(t) {
      RateFacts(w, t, f);
    } else {
      if IsDriver(t) {
        DriverGoesOn(w, t, input);
      } else if IsAccount(t) {
        AccountGoesOn(w, t, input);
      } else {
        RetryGoesOn(w, t, input);
      }
      NoFacts(StepTask(w, t, input).1);
    }
  }

  lemma RetryGoesOn(w: World, t: Task, input: Input)
    requires !IsRequest(t) && !IsAccept(t) && !IsMark(t) && !IsLifecycle(t) && !IsDriver(t) && !IsRate(t)
    requires !IsAccount(t) && !t.AcceptWait?
    ensures var t' := StepRetry(w, t, input).1; t'.RetryFind? || t'.RetryPublish? || t'.Done?
  {
    hide Stale, PublishRequested;
  }

  /** The row a step saves: a new one of a free rider, or one transition from a row read. */
  lemma SavedFacts(w: World, t: Task, input: Input, r: Ride)
    requires Saves.SavedRow(w, t, input) == Some(r)
    ensures if t.RequestSave? then r.status == REQUESTED && Free(r.rider, r.requestedAt) in Facts(t)
            else Moved(r) in Facts(t)
  {
    hide FareCents;
  }

  // ---------- the counts of free drivers ----------

  /** The search answered, and so many of the drivers answered were then available. */
  ghost predicate SupplyKnown(actions: seq<Action>, free: nat) {
    exists reply :: Was(actions, Answered(reply)) && Was(actions, Supplied(reply, free))
  }

  ghost predicate FreeKnown(actions: seq<Action>, t: Task) {
    t.RequestCacheGet? || t.RequestCacheSet? ==> SupplyKnown(actions, t.free)
  }

  lemma SupplyStays(actions: seq<Action>, a: Action, free: nat)
    requires SupplyKnown(actions, free)
    ensures SupplyKnown(actions + [a], free)
  {
    hide Was;
    var reply :| Was(actions, Answered(reply)) && Was(actions, Supplied(reply, free));
    WasStays(actions, a, Answered(reply));
    WasStays(actions, a, Supplied(reply, free));
  }

  /** Where the count of free drivers comes from. */
  lemma StepCounts(w: World, t: Task, input: Input)
    requires !t.AcceptWait?
    ensures var t' := StepTask(w, t, input).1;
            t'.RequestCacheGet? || t'.RequestCacheSet? ==>
              (t.RequestCacheGet? && t'.free == t.free)
              || (t.RequestFilter? && Answered(t.reply) in Facts(t) && Saw(w, Supplied(t.reply, t'.free)))
  {
    hide StepRequest, StepAccept, StepMark, StepLifecycle, StepDriver, StepRate, StepAccount, StepRetry;
    if IsRequest(t) {
      RequestCounts(w, t, input);
    } else {
      Saves.NotARequest(w, t, input);
    }
  }

  lemma RequestCounts(w: World, t: Task, input: Input)
    requires IsRequest(t)
    ensures var t' := StepRequest(w, t, input).1;
            t'.RequestCacheGet? || t'.RequestCacheSet? ==>
              (t.RequestCacheGet? && t'.free == t.free)
              || (t.RequestFilter? && Answered(t.reply) in Facts(t) && Saw(w, Supplied(t.reply, t'.free)))
  {
    hide HasActiveRide, PendingNear, KeepAvailable, Answers, Live, Lookup, ComputeMultiplier, FareCents, StoreSurge,
      SaveNew, PublishRequested, Contracts.Supply;
    if t.RequestFilter? {
      SerialCalls.SupplyCounted(w, t.reply);
    } else if t.RequestCacheSet? {
      assert StepRequest(w, t, input).1.RequestSave?;
    }
  }

  // ---------- who asked for the trip ----------

  /** The action is the rider's request of the trip. */
  predicate AskedAt(a: Action, rider: Id, trip: Trip) {
    a.Spawn? && a.call.CallRequest? && a.call.user == rider && a.call.trip == trip
  }

  predicate Asked(actions: seq<Action>, rider: Id, trip: Trip) {
    exists k :: 0 <= k < |actions| && AskedAt(actions[k], rider, trip)
  }

  /** The task is on the way to save a new ride. */
  predicate Requesting(t: Task) { t.RequestCheck? || Saves.PastCheck(t) }

  predicate TaskAsked(actions: seq<Action>, t: Task) {
    Requesting(t) ==> Asked(actions, t.rider, t.trip)
  }

  lemma AskedStays(actions: seq<Action>, a: Action, rider: Id, trip: Trip)
    requires Asked(actions, rider, trip)
    ensures Asked(actions + [a], rider, trip)
  {
    var k :| 0 <= k < |actions| && AskedAt(actions[k], rider, trip);
    assert (actions + [a])[k] == actions[k];
  }

  /** A request's steps keep the rider and the trip, and nothing else becomes a request. */
  lemma SameRequest(w: World, t: Task, input: Input)
    requires !t.AcceptWait? && Requesting(StepTask(w, t, input).1)
    ensures var t' := StepTask(w, t, input).1; Requesting(t) && t'.rider == t.rider && t'.trip == t.trip
  {
    hide StepAccept, StepMark, StepLifecycle, StepDriver, StepRate, StepAccount, StepRetry, HasActiveRide, PendingNear,
      KeepAvailable, Live, Lookup, ComputeMultiplier, FareCents, StoreSurge, SaveNew, PublishRequested;
    if !IsRequest(t) {
      hide StepRequest;
      Saves.NotARequest(w, t, input);
      NeverChecks(w, t, input);
    }
  }

  lemma NeverChecks(w: World, t: Task, input: Input)
    requires !IsRequest(t) && !t.AcceptWait?
    ensures !StepTask(w, t, input).1.RequestCheck?
  {
    hide StepRequest, StepAccept, StepMark, StepLifecycle, StepDriver, StepRate, StepAccount, StepRetry;
    if IsAccept(t) || IsMark(t) {
      NeverChecksHere(w, t);
    } else if IsLifecycle(t) {
      NeverChecksThere(w, t);
    } else if IsDriver(t) {
      DriverGoesOn(w, t, input);
    } else if IsRate(t) {
      RateGoesOn(w, t);
    } else if IsAccount(t) {
      AccountGoesOn(w, t, input);
    } else {
      RetryFrame(w, t, input);
    }
  }

  lemma NeverChecksHere(w: World, t: Task)
    ensures IsAccept(t) ==> !StepAccept(w, t).1.RequestCheck?
    ensures IsMark(t) ==> !StepMark(w, t).1.RequestCheck?
  {
    hide SaveMatch, PublishAccepted, SaveDriverRow, SyncAvailable, Resumed;
  }

  lemma NeverChecksThere(w: World, t: Task)
    requires IsLifecycle(t)
    ensures !StepLifecycle(w, t).1.RequestCheck?
  {
    hide SaveRide, PublishCompleted, PublishCancelled;
  }

  lemma AdmittedAsked(actions: seq<Action>, w: World, call: Call)
    requires Admit(w, call).Some?
    ensures TaskAsked(actions + [Spawn(call)], Admit(w, call).value)
  {
    hide Authenticated;
    assert (actions + [Spawn(call)])[|actions|] == Spawn(call);
    assert call.CallRequest? ==> AskedAt((actions + [Spawn(call)])[|actions|], call.user, call.trip);
  }

  lemma TasksAsked(actions: seq<Action>, c: Config, a: Action, i: nat)
    requires (forall j :: 0 <= j < |c.tasks| ==> TaskAsked(actions, c.tasks[j])) && i < |Next(c, a).tasks|
    ensures TaskAsked(actions + [a], Next(c, a).tasks[i])
  {
    hide StepTask, StepConsumer, Admit, Critical, Asked, Requesting;
    var t' := Next(c, a).tasks[i];
    if a.Spawn? && i == |c.tasks| {
      AdmittedAsked(actions, c.w, a.call);
    } else if Requesting(t') {
      assert TaskAsked(actions, c.tasks[i]);
      if a.Step? && a.task == i {
        StepperAsked(c, i, a.input);
      } else if a.Abort? && a.task == i {
        assert false by { DoneAsksNothing(); }
      }
      HasTrip(t');
      AskedStays(actions, a, t'.rider, t'.trip);
    }
  }

  lemma HasTrip(t: Task)
    requires Requesting(t)
    ensures IsRequest(t) && !t.RequestPublish?
  {
  }

  lemma DoneAsksNothing()
    ensures !Requesting(Done(Failed))
  {
  }

  lemma StepperAsked(c: Config, i: nat, input: Input)
    requires i < |c.tasks| && Requesting(Next(c, Step(i, input)).tasks[i])
    ensures var t' := Next(c, Step(i, input)).tasks[i];
            Requesting(c.tasks[i]) && t'.rider == c.tasks[i].rider && t'.trip == c.tasks[i].trip
  {
    hide StepTask, Critical;
    if !c.tasks[i].AcceptWait? {
      SameRequest(c.w, c.tasks[i], input);
    }
  }

  // ---------- what is written down ----------

  /** The surge write of a step, if it makes one. */
  function SurgeWritten(w: World, t: Task): seq<SurgeWrite> {
    if t.RequestCacheSet? then
      [SurgeWrite(t.trip.cell, w.now, t.pending, t.free, ComputeMultiplier(t.pending, t.free))]
    else []
  }

  lemma StepSurgeWrites(w: World, t: Task, input: Input)
    requires !t.AcceptWait?
    ensures StepTask(w, t, input).0.writes == w.writes + SurgeWritten(w, t)
  {
    hide StepRequest, StepAccept, StepMark, StepLifecycle, StepDriver, StepRate, StepAccount, StepRetry,
      ComputeMultiplier;
    if IsRequest(t) {
      RequestSurgeWrites(w, t, input);
    } else if IsAccept(t) {
      AcceptSurgeWrites(w, t);
    } else if IsMark(t) {
      MarkSurgeWrites(w, t);
    } else if IsLifecycle(t) {
      LifecycleSurgeWrites(w, t);
    } else if IsDriver(t) {
      DriverFrame(w, t, input);
    } else if IsRate(t) {
      RateFrame(w, t);
    } else if IsAccount(t) {
      AccountFrame(w, t, input);
    } else {
      RetryFrame(w, t, input);
    }
  }

  lemma RequestSurgeWrites(w: World, t: Task, input: Input)
    requires IsRequest(t)
    ensures StepRequest(w, t, input).0.writes == w.writes + SurgeWritten(w, t)
  {
    hide HasActiveRide, PendingNear, KeepAvailable, Answers, Live, Lookup, ComputeMultiplier, FareCents, Put;
  }

  lemma AcceptSurgeWrites(w: World, t: Task)
    requires IsAccept(t)
    ensures StepAccept(w, t).0.writes == w.writes
  {
  }

  lemma MarkSurgeWrites(w: World, t: Task)
    requires IsMark(t)
    ensures StepMark(w, t).0.writes == w.writes
  {
  }

  lemma LifecycleSurgeWrites(w: World, t: Task)
    requires IsLifecycle(t)
    ensures StepLifecycle(w, t).0.writes == w.writes
  {
    hide Started, Completed, Cancelled;
  }

  /** The rating a step inserts, if it inserts one. */
  function RatingInserted(w: World, t: Task): seq<Rating> {
    if t.RateInsert? && !HasRated(w.ratings, t.ride, t.from) then [Rating(t.ride, t.from, t.to, t.score)] else []
  }

  lemma StepInserts(w: World, t: Task, input: Input)
    requires !t.AcceptWait?
    ensures StepTask(w, t, input).0.ratings == w.ratings + RatingInserted(w, t)
  {
    hide StepRequest, StepAccept, StepMark, StepLifecycle, StepDriver, StepRate, StepAccount, StepRetry, HasRated;
    if IsRequest(t) {
      RequestFrame(w, t, input);
    } else if IsAccept(t) {
      AcceptLeaves(w, t);
    } else if IsMark(t) {
      MarkInserts(w, t);
    } else if IsLifecycle(t) {
      LifecycleLeaves(w, t);
    } else if IsDriver(t) {
      DriverFrame(w, t, input);
    } else if IsRate(t) {
      RateInserts(w, t);
    } else if IsAccount(t) {
      AccountFrame(w, t, input);
    } else {
      RetryFrame(w, t, input);
    }
  }

  lemma MarkInserts(w: World, t: Task)
    requires IsMark(t)
    ensures StepMark(w, t).0.ratings == w.ratings
  {
  }

  lemma RateInserts(w: World, t: Task)
    requires IsRate(t)
    ensures StepRate(w, t).0.ratings == w.ratings + RatingInserted(w, t)
  {
    hide HasRated, AddRating;
    if t.RateInsert? {
      AddRatingFrame(w, Rating(t.ride, t.from, t.to, t.score));
    } else {
      hide StepRate;
      RateFrame(w, t);
    }
  }

  // ---------- everything known of a run ----------

  /** The facts behind a stored ride row. */
  predicate RideKnown(actions: seq<Action>, r: Ride) {
    Was(actions, Free(r.rider, r.requestedAt)) && (r.status != REQUESTED ==> Was(actions, Moved(r)))
  }

  /** The request for which the multiplier was computed. */
  predicate WriteFor(actions: seq<Action>, x: SurgeWrite, rider: Id, trip: Trip) {
    Asked(actions, rider, trip) && trip.cell == x.cell && Was(actions, Demanded(trip.pickup, x.pending))
  }

  ghost predicate WriteKnown(actions: seq<Action>, x: SurgeWrite) {
    SupplyKnown(actions, x.free) && exists rider, trip :: WriteFor(actions, x, rider, trip)
  }

  ghost predicate TaskKnown(actions: seq<Action>, t: Task) {
    TaskAsked(actions, t) && FreeKnown(actions, t) && forall f :: f in Facts(t) ==> Was(actions, f)
  }

  ghost predicate TasksKnown(actions: seq<Action>, tasks: seq<Task>) {
    forall i :: 0 <= i < |tasks| ==> TaskKnown(actions, tasks[i])
  }

  ghost predicate WorldKnown(actions: seq<Action>, w: World) {
    && (forall id :: id in w.rides ==> RideKnown(actions, w.rides[id]))
    && (forall i :: 0 <= i < |w.writes| ==> WriteKnown(actions, w.writes[i]))
    && (forall i :: 0 <= i < |w.ratings| ==> Was(actions, Judged(w.ratings[i])))
  }

  ghost predicate Known(actions: seq<Action>, c: Config) {
    TasksKnown(actions, c.tasks) && WorldKnown(actions, c.w)
  }

  lemma TaskStaysKnown(actions: seq<Action>, a: Action, t: Task)
    requires TaskKnown(actions, t)
    ensures TaskKnown(actions + [a], t)
  {
    hide Was, Facts, Asked, SupplyKnown, Requesting;
    if Requesting(t) {
      HasTrip(t);
      AskedStays(actions, a, t.rider, t.trip);
    }
    if t.RequestCacheGet? || t.RequestCacheSet? {
      SupplyStays(actions, a, t.free);
    }
    forall f | f in Facts(t)
      ensures Was(actions + [a], f)
    {
      WasStays(actions, a, f);
    }
  }

  lemma NewTaskKnown(actions: seq<Action>, c: Config, call: Call)
    requires Admit(c.w, call).Some?
    ensures TaskKnown(actions + [Spawn(call)], Admit(c.w, call).value)
  {
    hide Was, Asked, Authenticated;
    AdmittedAsked(actions, c.w, call);
  }

  /** One step of task i: what it goes on with it knew, or sees. */
  lemma StepperKnown(actions: seq<Action>, c: Config, i: nat, input: Input)
    requires c == Exec(Start, actions) && Rides.ConfigOK(c) && TasksKnown(actions, c.tasks) && i < |c.tasks|
    ensures TaskKnown(actions + [Step(i, input)], Next(c, Step(i, input)).tasks[i])
  {
    hide Was, Facts, Asked, SupplyKnown, Requesting, StepTask, Critical, Exec, Saw, Rides.WorldOK;
    var a, t := Step(i, input), c.tasks[i];
    var t' := Next(c, a).tasks[i];
    assert TaskKnown(actions, t);
    TasksAsked(actions, c, a, i);
    if t.AcceptWait? {
      WaiterKnowsNothing(t);
    } else {
      StepCounts(c.w, t, input);
      if t'.RequestCacheGet? || t'.RequestCacheSet? {
        if t.RequestCacheGet? {
          SupplyStays(actions, a, t.free);
        } else {
          WasStays(actions, a, Answered(t.reply));
          SeenNow(actions, a, Supplied(t.reply, t'.free));
          assert SupplyKnown(actions + [a], t'.free) by { Witnessed(actions + [a], t.reply, t'.free); }
        }
      }
      forall f | f in Facts(t')
        ensures Was(actions + [a], f)
      {
        StepFacts(c.w, t, input, f);
        if f in Facts(t) {
          WasStays(actions, a, f);
        } else {
          SeenNow(actions, a, f);
        }
      }
    }
  }

  lemma Witnessed(actions: seq<Action>, reply: seq<Hit>, free: nat)
    requires Was(actions, Answered(reply)) && Was(actions, Supplied(reply, free))
    ensures SupplyKnown(actions, free)
  {
  }

  lemma WaiterKnowsNothing(t: Task)
    requires t.AcceptWait?
    ensures Facts(t) == {} && Facts(AcceptReadRide(t.ride, t.driver)) == {}
  {
  }

  lemma DoneKnows(actions: seq<Action>)
    ensures TaskKnown(actions, Done(Failed))
  {
  }

  lemma NextTasksKnown(actions: seq<Action>, c: Config, a: Action)
    requires c == Exec(Start, actions) && Rides.ConfigOK(c) && TasksKnown(actions, c.tasks)
    ensures TasksKnown(actions + [a], Next(c, a).tasks)
  {
    hide TaskKnown, Rides.ConfigOK, StepTask, StepConsumer, Admit, Critical, Exec;
    forall i | 0 <= i < |Next(c, a).tasks|
      ensures TaskKnown(actions + [a], Next(c, a).tasks[i])
    {
      if a.Step? && a.task == i {
        StepperKnown(actions, c, i, a.input);
      } else if a.Abort? && a.task == i {
        DoneKnows(actions + [a]);
      } else if a.Spawn? && i == |c.tasks| {
        NewTaskKnown(actions, c, a.call);
      } else {
        assert TaskKnown(actions, c.tasks[i]);
        TaskStaysKnown(actions, a, c.tasks[i]);
      }
    }
  }

  lemma RideStaysKnown(actions: seq<Action>, a: Action, r: Ride)
    requires RideKnown(actions, r)
    ensures RideKnown(actions + [a], r)
  {
    hide Was;
    WasStays(actions, a, Free(r.rider, r.requestedAt));
    if r.status != REQUESTED {
      WasStays(actions, a, Moved(r));
    }
  }

  lemma NextRideKnown(actions: seq<Action>, c: Config, a: Action, id: Id)
    requires c == Exec(Start, actions) && Rides.ConfigOK(c) && Known(actions, c) && id in Next(c, a).w.rides
    ensures RideKnown(actions + [a], Next(c, a).w.rides[id])
  {
    hide Was, Facts, Next, Exec, Rides.ConfigOK, Rides.Later, Saves.SavedRow, TaskAsked, FreeKnown, WriteKnown,
      Consistent;
    Saves.NextWrites(c, a);
    var saved := Saves.SavedBy(c, a);
    if saved.Some? && saved.value.id == id {
      var t := c.tasks[a.task];
      assert TaskKnown(actions, t);
      SavedFacts(c.w, t, a.input, saved.value);
      if t.RequestSave? {
        WasStays(actions, a, Free(saved.value.rider, saved.value.requestedAt));
      } else {
        WasStays(actions, a, Moved(saved.value));
        SavedTrip(actions, c, a);
        WasStays(actions, a, Free(saved.value.rider, saved.value.requestedAt));
      }
    } else {
      assert RideKnown(actions, c.w.rides[id]);
      RideStaysKnown(actions, a, c.w.rides[id]);
    }
  }

  /** A row saved over a stored one is of the same rider and time. */
  lemma SavedTrip(actions: seq<Action>, c: Config, a: Action)
    requires Rides.ConfigOK(c) && WorldKnown(actions, c.w)
    requires Saves.SavedBy(c, a).Some? && !c.tasks[a.task].RequestSave?
    ensures var r := Saves.SavedBy(c, a).value; Was(actions, Free(r.rider, r.requestedAt))
  {
    hide Was, WriteKnown, Consistent, Rides.DriverCommitted, Rides.WorldOK;
    var t, r := c.tasks[a.task], Saves.SavedBy(c, a).value;
    assert Rides.TaskOK(c.w, t) && Rides.CriticalOK(c.w, t);
    assert r.id in c.w.rides && SameTrip(r, c.w.rides[r.id]);
    assert RideKnown(actions, c.w.rides[r.id]);
  }

  lemma WriteStaysKnown(actions: seq<Action>, a: Action, x: SurgeWrite)
    requires WriteKnown(actions, x)
    ensures WriteKnown(actions + [a], x)
  {
    hide Was, Asked, SupplyKnown;
    SupplyStays(actions, a, x.free);
    var rider, trip :| WriteFor(actions, x, rider, trip);
    AskedStays(actions, a, rider, trip);
    WasStays(actions, a, Demanded(trip.pickup, x.pending));
    assert WriteFor(actions + [a], x, rider, trip);
  }

  lemma NewWriteKnown(actions: seq<Action>, a: Action, w: World, t: Task)
    requires TaskKnown(actions, t) && t.RequestCacheSet?
    ensures WriteKnown(actions + [a], SurgeWritten(w, t)[0])
  {
    hide Was, Asked, SupplyKnown, ComputeMultiplier;
    assert Demanded(t.trip.pickup, t.pending) in Facts(t);
    assert WriteFor(actions, SurgeWritten(w, t)[0], t.rider, t.trip);
    assert WriteKnown(actions, SurgeWritten(w, t)[0]);
    WriteStaysKnown(actions, a, SurgeWritten(w, t)[0]);
  }

  /** The task that the action steps; a finished one if it steps none. */
  function Stepper(c: Config, a: Action): Task {
    if a.Step? && a.task < |c.tasks| then c.tasks[a.task] else Done(Failed)
  }

  /** What an action adds to the surge writes and the ratings. */
  lemma NextRecords(c: Config, a: Action)
    ensures var w, w' := c.w, Next(c, a).w;
            w'.writes == w.writes + SurgeWritten(w, Stepper(c, a))
            && w'.ratings == w.ratings + RatingInserted(w, Stepper(c, a))
  {
    hide StepTask, StepConsumer, Admit, Critical, HasRated, ComputeMultiplier;
    match a
    case Step(i, input) =>
      if i < |c.tasks| && !c.tasks[i].AcceptWait? {
        StepSurgeWrites(c.w, c.tasks[i], input);
        StepInserts(c.w, c.tasks[i], input);
      }
    case Handle(input) => ConsumerFrame(c.w, c.consumer, input);
    case _ =>
  }

  lemma NextWorldKnown(actions: seq<Action>, c: Config, a: Action)
    requires c == Exec(Start, actions) && Rides.ConfigOK(c) && Known(actions, c)
    ensures WorldKnown(actions + [a], Next(c, a).w)
  {
    hide Was, Facts, Next, Exec, Rides.ConfigOK, RideKnown, WriteKnown, TaskKnown, RatingInserted, SurgeWritten;
    var w' := Next(c, a).w;
    NextRecords(c, a);
    StepperIsKnown(actions, c, a);
    forall id | id in w'.rides
      ensures RideKnown(actions + [a], w'.rides[id])
    {
      NextRideKnown(actions, c, a, id);
    }
    forall i | 0 <= i < |w'.writes|
      ensures WriteKnown(actions + [a], w'.writes[i])
    {
      if i < |c.w.writes| {
        WriteStaysKnown(actions, a, c.w.writes[i]);
      } else {
        OneWrite(c.w, Stepper(c, a));
        NewWriteKnown(actions, a, c.w, Stepper(c, a));
      }
    }
    forall i | 0 <= i < |w'.ratings|
      ensures Was(actions + [a], Judged(w'.ratings[i]))
    {
      if i >= |c.w.ratings| {
        OneRating(actions, c.w, Stepper(c, a));
      }
      WasStays(actions, a, Judged(w'.ratings[i]));
    }
  }

  lemma StepperIsKnown(actions: seq<Action>, c: Config, a: Action)
    requires TasksKnown(actions, c.tasks)
    ensures TaskKnown(actions, Stepper(c, a))
  {
    hide TaskKnown;
    DoneKnows(actions);
  }

  lemma OneWrite(w: World, t: Task)
    ensures SurgeWritten(w, t) != [] ==> t.RequestCacheSet? && |SurgeWritten(w, t)| == 1
    ensures SurgeWritten(w, Done(Failed)) == []
  {
  }

  lemma OneRating(actions: seq<Action>, w: World, t: Task)
    requires TaskKnown(actions, t)
    ensures |RatingInserted(w, t)| <= 1
    ensures RatingInserted(w, t) != [] ==> Was(actions, Judged(RatingInserted(w, t)[0]))
    ensures RatingInserted(w, Done(Failed)) == []
  {
    hide Was, HasRated;
  }

  lemma NextKnown(actions: seq<Action>, a: Action)
    requires Known(actions, Exec(Start, actions))
    ensures Known(actions + [a], Next(Exec(Start, actions), a))
  {
    hide Next, Exec, TasksKnown, WorldKnown, Rides.ConfigOK;
    Rides.RunOK(actions);
    NextTasksKnown(actions, Exec(Start, actions), a);
    NextWorldKnown(actions, Exec(Start, actions), a);
  }

  /** Every run: whatever a task, a row or a table has was true at some moment. */
  lemma {:induction false} RunKnown(actions: seq<Action>)
    ensures Known(actions, Exec(Start, actions))
  {
    hide Next, Known;
    if actions != [] {
      var init, a := actions[..|actions| - 1], actions[|actions| - 1];
      assert init + [a] == actions;
      RunKnown(init);
      NextKnown(init, a);
    } else {
      NothingYet(actions);
    }
  }

  lemma NothingYet(actions: seq<Action>)
    ensures Known(actions, Start)
  {
    hide Was, TaskKnown;
  }

  // ---------- what this says of every run ----------

  /** Row provenance: every stored row that is not REQUESTED is one transition, written out,
      from the row that was stored at some earlier moment; a completed one was IN_PROGRESS at
      that moment, and its time of completion is the clock then. */
  lemma RowProvenance(actions: seq<Action>, id: Id) returns (k: nat)
    requires id in Exec(Start, actions).w.rides && Exec(Start, actions).w.rides[id].status != REQUESTED
    ensures k <= |actions|
    ensures var r := Exec(Start, actions).w.rides[id]; var then' := Moment(actions, k);
            r.id == id && id in then'.rides && Transition(then'.rides[id], r)
            && (r.status == COMPLETED ==> r.completedAt == Some(then'.now))
  {
    hide Exec, Transition, Rides.ConfigOK;
    RunKnown(actions);
    Rides.RunOK(actions);
    Saves.CompletedId(Exec(Start, actions), id);
    var r := Exec(Start, actions).w.rides[id];
    assert RideKnown(actions, r);
    k :| 0 <= k <= |actions| && Saw(Moment(actions, k), Moved(r));
  }

  /** So is every row a task is about to save, however stale. */
  lemma HeldRowProvenance(actions: seq<Action>, i: nat, r: Ride) returns (k: nat)
    requires i < |Exec(Start, actions).tasks| && Rides.AboutToSave(Exec(Start, actions).tasks[i], r)
    ensures k <= |actions|
    ensures var then' := Moment(actions, k);
            r.id in then'.rides && Transition(then'.rides[r.id], r)
            && (r.status == COMPLETED ==> r.completedAt == Some(then'.now))
  {
    hide Exec, Transition;
    RunKnown(actions);
    var t := Exec(Start, actions).tasks[i];
    assert TaskKnown(actions, t);
    assert Moved(r) in Facts(t);
    k :| 0 <= k <= |actions| && Saw(Moment(actions, k), Moved(r));
  }

  /** A ride's time of request is the clock at a moment at which its rider had no ride
      REQUESTED, MATCHED or IN_PROGRESS, whatever the rider had when the row was saved. */
  lemma RequestProvenance(actions: seq<Action>, id: Id) returns (k: nat)
    requires id in Exec(Start, actions).w.rides
    ensures k <= |actions|
    ensures var r := Exec(Start, actions).w.rides[id]; var then' := Moment(actions, k);
            r.requestedAt == then'.now
            && forall other :: other in then'.rides && then'.rides[other].rider == r.rider
                               ==> then'.rides[other].status in {COMPLETED, CANCELLED}
  {
    hide Exec;
    RunKnown(actions);
    var r := Exec(Start, actions).w.rides[id];
    assert RideKnown(actions, r);
    k :| 0 <= k <= |actions| && Saw(Moment(actions, k), Free(r.rider, r.requestedAt));
    IdleRider(Moment(actions, k), r.rider);
  }

  lemma IdleRider(w: World, rider: Id)
    requires !Contracts.Busy(w, rider)
    ensures forall id :: id in w.rides && w.rides[id].rider == rider ==> w.rides[id].status in {COMPLETED, CANCELLED}
  {
    forall id | id in w.rides && w.rides[id].rider == rider
      ensures w.rides[id].status in {COMPLETED, CANCELLED}
    {
      assert w.rides[id].status !in {REQUESTED, MATCHED, IN_PROGRESS};
      assert w.rides[id].status.COMPLETED? || w.rides[id].status.CANCELLED?;
    }
  }

  /** Surge provenance: the counts behind every multiplier written for a cell are those of
      earlier moments of the run: the REQUESTED rides within 0.01 degrees of the pickup of a
      trip in that cell that someone asked for, and those drivers of a possible answer of the
      search within 3 km that were in the availability set. */
  lemma SurgeProvenance(actions: seq<Action>, x: SurgeWrite)
    returns (asked: nat, trip: Trip, counted: nat, reply: seq<Hit>, searched: nat, filtered: nat)
    requires x in Exec(Start, actions).w.writes
    ensures asked < |actions| && counted <= |actions| && searched <= |actions| && filtered <= |actions|
    ensures actions[asked].Spawn? && actions[asked].call.CallRequest? && actions[asked].call.trip == trip
    ensures trip.cell == x.cell
    ensures var w := Moment(actions, counted);
            x.pending == |set id | id in w.rides && w.rides[id].status == REQUESTED
                                   && trip.pickup.lat - 0.01 <= w.rides[id].pickup.lat <= trip.pickup.lat + 0.01
                                   && trip.pickup.lng - 0.01 <= w.rides[id].pickup.lng <= trip.pickup.lng + 0.01|
    ensures Answers(Moment(actions, searched).located.Keys, 3.0, reply) && |reply| <= 20
    ensures x.free == |set i | 0 <= i < |reply| && reply[i].driver in Moment(actions, filtered).available|
  {
    hide Exec, Answers;
    RunKnown(actions);
    var i :| 0 <= i < |Exec(Start, actions).w.writes| && Exec(Start, actions).w.writes[i] == x;
    assert WriteKnown(actions, Exec(Start, actions).w.writes[i]);
    var rider, t :| WriteFor(actions, x, rider, t);
    trip := t;
    asked :| 0 <= asked < |actions| && AskedAt(actions[asked], rider, trip);
    counted :| 0 <= counted <= |actions| && Saw(Moment(actions, counted), Demanded(trip.pickup, x.pending));
    reply :| Was(actions, Answered(reply)) && Was(actions, Supplied(reply, x.free));
    searched :| 0 <= searched <= |actions| && Saw(Moment(actions, searched), Answered(reply));
    AtMost20(Moment(actions, searched), reply);
    filtered :| 0 <= filtered <= |actions| && Saw(Moment(actions, filtered), Supplied(reply, x.free));
  }

  lemma AtMost20(w: World, reply: seq<Hit>)
    requires Answers(w.located.Keys, 3.0, reply)
    ensures |reply| <= 20
  {
  }

  /** Every rating in the table, in every interleaving, was given for a ride that was COMPLETED
      when it was read, by the rider to the driver or by the driver to the rider. */
  lemma RatingProvenance(actions: seq<Action>, i: nat) returns (k: nat)
    requires i < |Exec(Start, actions).w.ratings|
    ensures k <= |actions|
    ensures var r := Exec(Start, actions).w.ratings[i]; var then' := Moment(actions, k);
            r.rideId in then'.rides && 1 <= r.score <= 5
            && (var ride := then'.rides[r.rideId];
                ride.status == COMPLETED
                && (r.fromUser == ride.rider ==> Some(r.toUser) == ride.driver)
                && (r.fromUser != ride.rider ==> Some(r.fromUser) == ride.driver && r.toUser == ride.rider))
  {
    hide Exec;
    RunKnown(actions);
    var r := Exec(Start, actions).w.ratings[i];
    k :| 0 <= k <= |actions| && Saw(Moment(actions, k), Judged(r));
  }
}

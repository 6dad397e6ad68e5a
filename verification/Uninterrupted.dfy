/** The two layers agree: a handler whose steps are not interleaved with anything does exactly
    what the serial call of Serial does. */
module Uninterrupted {
  import opened Models
  import opened Surge
  import opened SurgeText
  import opened Fares
  import opened Pricing
  import opened Dispatch
  import opened RatingMath
  import opened Worlds
  import opened Machine
  import Serial

  /** At most how many steps follow once a driver row is saved. */
  function StepsAfter(k: Resume): nat {
    match k
    case ToAcceptSave(_, _) => 3
    case ToCompletePublish(_) => 1
    case ToCancelSave(_) => 2
    case ToRateUser(_, _) => 2
    case ToUpgrade(_) => 2
    case ToClose(_) => 0
    case ToFinish => 0
  }

  /** At most how many steps a task still takes. */
  function StepsLeft(t: Task): nat {
    match t
    case RequestCheck(_, _) => 8
    case RequestPending(_, _, _) => 7
    case RequestSearch(_, _, _, _) => 6
    case RequestFilter(_, _, _, _, _) => 5
    case RequestCacheGet(_, _, _, _, _) => 4
    case RequestCacheSet(_, _, _, _, _) => 3
    case RequestSave(_, _, _, _, _) => 2
    case AcceptWait(_, _) => 9
    case AcceptReadRide(_, _) => 8
    case AcceptReadDriver(_, _) => 7
    case AcceptSave(_, _) => 3
    case AcceptPublish(_) => 2
    case MarkRead(_, _, k) => 3 + StepsAfter(k)
    case DriverSave(_, k) => 2 + StepsAfter(k)
    case DriverSync(_, k) => 1 + StepsAfter(k)
    case StartRead(_, _) => 2
    case CompleteRead(_, _) => 6
    case CompleteSave(_, _) => 5
    case CancelRead(_, _) => 6
    case CancelSave(_) => 2
    case OnlineProfile(_, _) => 5
    case OnlineLocate(_, _) => 4
    case OfflineProfile(_) => 5
    case OfflineLocate(_) => 4
    case LocationProfile(_, _) => 3
    case LocationLocate(_, _) => 2
    case RateRead(_, _, _) => 8
    case RateExists(_, _, _, _) => 7
    case RateInsert(_, _, _, _) => 6
    case RateDriver(_, _) => 5
    case RateUser(_, _) => 2
    case RegisterCheck(_, _, _) => 5
    case UpgradeUser(_) => 2
    case SignUpCheck(_) => 3
    case SignUpSave(_) => 2
    case LoginRead(_) => 2
    case SwitchRead(_) => 2
    case RetryPublish(ids) => |ids| + 1
    case Done(_) => 0
    case RetryFind => 0
    case _ => 1
  }

  /** For steps that ask nothing of the outside. */
  const NOTHING := Input([], 0, [])

  /** The task run by itself until it is done, or cannot go on. */
  function Alone(w: World, t: Task, input: Input): (World, Task)
    decreases StepsLeft(t)
  {
    var (w', t') := StepTask(w, t, input);
    if StepsLeft(t') < StepsLeft(t) then Alone(w', t', input) else (w, t)
  }

  /** The handler's first step for a serial command; an accept already has the lock. */
  function Handler(w: World, c: Serial.Command): Task
    requires Serial.Possible(w, c) && !c.DoWait?
  {
    match c
    case DoSignUp(username, _) => SignUpCheck(username)
    case DoRegisterDriver(user, vehicle, plate) => RegisterCheck(w.users[user], vehicle, plate)
    case DoOnline(user, at) => OnlineProfile(user, at)
    case DoOffline(user) => OfflineProfile(user)
    case DoLocation(user, at, _) => LocationProfile(user, at)
    case DoRequest(user, trip, _, _) => RequestCheck(user, trip)
    case DoAccept(user, ride) => AcceptReadRide(ride, user)
    case DoStart(user, ride) => StartRead(ride, user)
    case DoComplete(user, ride) => CompleteRead(ride, user)
    case DoCancel(user, ride) => CancelRead(ride, user)
    case DoRate(user, ride, score) => RateRead(ride, user, score)
  }

  /** The outside supplies the step machine with what the command names. */
  predicate Supplies(input: Input, c: Serial.Command) {
    match c
    case DoSignUp(_, uuid) => input.uuid == uuid
    case DoLocation(_, _, held) => First(input.ids) == held
    case DoRequest(_, _, reply, uuid) => input.uuid == uuid && input.reply == reply
    case _ => true
  }

  /** What the handler's end state should be. */
  predicate Agrees(end: (World, Task), served: (World, Outcome)) {
    end == (served.0, Done(served.1))
  }

  // ---------- one step at a time ----------

  lemma OneStep(w: World, t: Task, input: Input)
    requires StepsLeft(StepTask(w, t, input).1) < StepsLeft(t)
    ensures Alone(w, t, input) == Alone(StepTask(w, t, input).0, StepTask(w, t, input).1, input)
  {
  }

  lemma Stops(w: World, outcome: Outcome, input: Input)
    ensures Alone(w, Done(outcome), input) == (w, Done(outcome))
  {
  }

  /** mark_*_by_id with what follows it. */
  lemma MarkAlone(w: World, driver: Id, flag: bool, k: Resume, input: Input)
    ensures Alone(w, MarkRead(driver, flag, k), input) ==
            if driver in w.drivers then
              Alone(Resumed(SaveDriver(w, w.drivers[driver].(isAvailable := flag)), k), Continue(k), input)
            else if k.ToAcceptSave? then Alone(w, AcceptRelease(Refused(404)), input)
            else (w, Done(Refused(404)))
  {
    hide Alone;
    OneStep(w, MarkRead(driver, flag, k), input);
    if driver in w.drivers {
      SaveAlone(w, w.drivers[driver].(isAvailable := flag), k, input);
    } else if !k.ToAcceptSave? {
      Stops(w, Refused(404), input);
    }
  }

  /** DriverRepository.save with what follows it. */
  lemma SaveAlone(w: World, d: Driver, k: Resume, input: Input)
    ensures Alone(w, DriverSave(d, k), input) == Alone(Resumed(SaveDriver(w, d), k), Continue(k), input)
  {
    hide Alone;
    OneStep(w, DriverSave(d, k), input);
    OneStep(SaveDriverRow(w, d), DriverSync(d, k), input);
  }

  lemma LastStep(w: World, t: Task, input: Input)
    requires StepTask(w, t, input).1.Done? && StepsLeft(t) > 0
    ensures Alone(w, t, input) == StepTask(w, t, input)
  {
    OneStep(w, t, input);
    Stops(StepTask(w, t, input).0, StepTask(w, t, input).1.outcome, input);
  }

  // ---------- each handler ----------

  lemma AcceptAlone(w: World, ride: Id, driver: Id, input: Input)
    ensures Agrees(Alone(w, AcceptReadRide(ride, driver), input), Serial.AcceptRide(w, ride, driver))
  {
    hide Alone, StepRequest;
    OneStep(w, AcceptReadRide(ride, driver), input);
    if ride !in w.rides {
      LastStep(w, AcceptRelease(Refused(404)), input);
    } else if w.rides[ride].status != REQUESTED {
      LastStep(w, AcceptRelease(Refused(409)), input);
    } else {
      var s := w.rides[ride];
      OneStep(w, AcceptReadDriver(s, driver), input);
      if driver !in w.drivers {
        LastStep(w, AcceptRelease(Refused(403)), input);
      } else if !w.drivers[driver].isAvailable {
        LastStep(w, AcceptRelease(Refused(409)), input);
      } else {
        MarkAlone(w, driver, false, ToAcceptSave(s, driver), input);
        MatchAlone(SaveDriver(w, w.drivers[driver].(isAvailable := false)), s, driver, input);
      }
    }
  }

  lemma MatchAlone(w: World, s: Ride, driver: Id, input: Input)
    ensures Agrees(Alone(w, AcceptSave(s, driver), input),
                   (PublishAccepted(SaveMatch(w, s, driver), s.id), Granted(Matched(s, driver))))
  {
    hide Alone;
    var w1 := SaveMatch(w, s, driver);
    var saved := Matched(s, driver);
    OneStep(w, AcceptSave(s, driver), input);
    OneStep(w1, AcceptPublish(saved), input);
    LastStep(PublishAccepted(w1, s.id), AcceptRelease(Granted(saved)), input);
  }

  lemma StartAlone(w: World, ride: Id, driver: Id, input: Input)
    ensures Agrees(Alone(w, StartRead(ride, driver), input), Serial.StartRide(w, ride, driver))
  {
    hide Alone;
    if StepTask(w, StartRead(ride, driver), input).1.Done? {
      LastStep(w, StartRead(ride, driver), input);
    } else {
      OneStep(w, StartRead(ride, driver), input);
      LastStep(w, StartSave(Started(w.rides[ride])), input);
    }
  }

  lemma CompleteAlone(w: World, ride: Id, driver: Id, input: Input)
    ensures Agrees(Alone(w, CompleteRead(ride, driver), input), Serial.CompleteRide(w, ride, driver))
  {
    hide Alone;
    if StepTask(w, CompleteRead(ride, driver), input).1.Done? {
      LastStep(w, CompleteRead(ride, driver), input);
    } else {
      var row := Completed(w.rides[ride], w.now);
      var w1 := SaveRide(w, row);
      OneStep(w, CompleteRead(ride, driver), input);
      OneStep(w, CompleteSave(row, driver), input);
      MarkAlone(w1, driver, true, ToCompletePublish(row), input);
      if driver in w1.drivers {
        LastStep(SaveDriver(w1, w1.drivers[driver].(isAvailable := true)), CompletePublish(row), input);
      }
    }
  }

  lemma CancelAlone(w: World, ride: Id, user: Id, input: Input)
    ensures Agrees(Alone(w, CancelRead(ride, user), input), Serial.CancelRide(w, ride, user))
  {
    hide Alone;
    if StepTask(w, CancelRead(ride, user), input).1.Done? {
      LastStep(w, CancelRead(ride, user), input);
    } else {
      var r := w.rides[ride];
      OneStep(w, CancelRead(ride, user), input);
      if r.driver.None? {
        CancelSaveAlone(w, Cancelled(r), input);
      } else {
        MarkAlone(w, r.driver.value, true, ToCancelSave(Cancelled(r)), input);
        if r.driver.value in w.drivers {
          CancelSaveAlone(SaveDriver(w, w.drivers[r.driver.value].(isAvailable := true)), Cancelled(r), input);
        }
      }
    }
  }

  lemma CancelSaveAlone(w: World, row: Ride, input: Input)
    ensures Agrees(Alone(w, CancelSave(row), input), (PublishCancelled(SaveRide(w, row), row.id), Granted(row)))
  {
    hide Alone;
    OneStep(w, CancelSave(row), input);
    LastStep(SaveRide(w, row), CancelPublish(row), input);
  }

  lemma OnlineAlone(w: World, user: Id, at: Point, input: Input)
    ensures Agrees(Alone(w, OnlineProfile(user, at), input), Serial.GoOnline(w, user, at))
  {
    hide Alone;
    if user !in w.drivers {
      LastStep(w, OnlineProfile(user, at), input);
    } else {
      var w1 := w.(located := w.located[user := at]);
      OneStep(w, OnlineProfile(user, at), input);
      OneStep(w, OnlineLocate(user, at), input);
      MarkAlone(w1, user, true, ToFinish, input);
      Stops(SaveDriver(w1, w1.drivers[user].(isAvailable := true)), Finished, input);
    }
  }

  lemma OfflineAlone(w: World, user: Id, input: Input)
    ensures Agrees(Alone(w, OfflineProfile(user), input), Serial.GoOffline(w, user))
  {
    hide Alone;
    if user !in w.drivers {
      LastStep(w, OfflineProfile(user), input);
    } else {
      var w1 := w.(located := w.located - {user});
      OneStep(w, OfflineProfile(user), input);
      OneStep(w, OfflineLocate(user), input);
      MarkAlone(w1, user, false, ToClose(user), input);
      Stops(CloseStream(SaveDriver(w1, w1.drivers[user].(isAvailable := false)), user), Finished, input);
    }
  }

  lemma LocationAlone(w: World, user: Id, at: Point, input: Input)
    requires user in w.drivers ==> FirstHeld(w, user, First(input.ids))
    ensures Agrees(Alone(w, LocationProfile(user, at), input), Serial.UpdateLocation(w, user, at, First(input.ids)))
  {
    hide Alone, FirstHeld, TellMoved;
    if user !in w.drivers {
      LastStep(w, LocationProfile(user, at), input);
    } else {
      var w1 := w.(located := w.located[user := at]);
      OneStep(w, LocationProfile(user, at), input);
      OneStep(w, LocationLocate(user, at), input);
      StillHeld(w, w1, user, First(input.ids));
      LastStep(w1, LocationRide(user, at), input);
    }
  }

  lemma StillHeld(w: World, w': World, user: Id, held: Option<Id>)
    requires FirstHeld(w, user, held) && w'.rides == w.rides
    ensures FirstHeld(w', user, held) && (held.Some? ==> held.value in w'.rides)
  {
  }

  lemma RateAlone(w: World, ride: Id, from: Id, score: int, input: Input)
    ensures Agrees(Alone(w, RateRead(ride, from, score), input), Serial.Rate(w, ride, from, score))
  {
    hide Alone, HasRated, Serial.ScoreDriver, Serial.ScoreUser, AddScore;
    if StepTask(w, RateRead(ride, from, score), input).1.Done? {
      LastStep(w, RateRead(ride, from, score), input);
    } else {
      var to := Serial.Ratee(w.rides[ride], from).value;
      OneStep(w, RateRead(ride, from, score), input);
      if HasRated(w.ratings, ride, from) {
        LastStep(w, RateExists(ride, from, to, score), input);
      } else {
        var w1 := AddRating(w, Rating(ride, from, to, score));
        OneStep(w, RateExists(ride, from, to, score), input);
        OneStep(w, RateInsert(ride, from, to, score), input);
        RateDriverAlone(w1, to, score, input);
        RateUserAlone(Serial.ScoreDriver(w1, to, score), to, score, input);
      }
    }
  }

  lemma RateDriverAlone(w: World, to: Id, score: nat, input: Input)
    ensures Alone(w, RateDriver(to, score), input)
            == Alone(Serial.ScoreDriver(w, to, score), RateUser(to, score), input)
  {
    hide Alone, AddScore;
    OneStep(w, RateDriver(to, score), input);
    if to in w.drivers {
      SaveAlone(w, Serial.RatedDriver(w.drivers[to], score), ToRateUser(to, score), input);
    }
  }

  lemma RateUserAlone(w: World, to: Id, score: nat, input: Input)
    ensures Agrees(Alone(w, RateUser(to, score), input), (Serial.ScoreUser(w, to, score), Finished))
  {
    hide Alone, AddScore;
    if to in w.users {
      OneStep(w, RateUser(to, score), input);
      LastStep(w, RateUserSave(Serial.RatedUser(w.users[to], score)), input);
    } else {
      LastStep(w, RateUser(to, score), input);
    }
  }

  lemma SignUpAlone(w: World, username: string, input: Input)
    requires input.uuid !in w.users
    ensures Agrees(Alone(w, SignUpCheck(username), input), Serial.SignUp(w, username, input.uuid))
  {
    hide Alone, UsernameTaken, SaveUser, IssueToken;
    if UsernameTaken(w, username) {
      LastStep(w, SignUpCheck(username), input);
    } else {
      OneStep(w, SignUpCheck(username), input);
      SignUpSaveAlone(w, username, input);
    }
  }

  lemma SignUpSaveAlone(w: World, username: string, input: Input)
    requires input.uuid !in w.users && !UsernameTaken(w, username)
    ensures var w1 := SaveUser(w, User(input.uuid, username, RIDER, None, 0));
            Agrees(Alone(w, SignUpSave(username), input), (IssueToken(w1, username, RIDER), Finished))
  {
    hide Alone, UsernameTaken, SaveUser, IssueToken;
    OneStep(w, SignUpSave(username), input);
    LastStep(SaveUser(w, User(input.uuid, username, RIDER, None, 0)), Issue(username, RIDER), input);
  }

  lemma RegisterAlone(w: World, user: Id, vehicle: string, plate: string, input: Input)
    requires user in w.users && w.users[user].id == user
    ensures Agrees(Alone(w, RegisterCheck(w.users[user], vehicle, plate), input),
                   Serial.RegisterDriver(w, user, vehicle, plate))
  {
    hide Alone, SaveDriver, SaveUser, IssueToken;
    var u := w.users[user];
    if user in w.drivers {
      LastStep(w, RegisterCheck(u, vehicle, plate), input);
    } else {
      var row := Serial.NewDriver(user, vehicle, plate);
      OneStep(w, RegisterCheck(u, vehicle, plate), input);
      SaveAlone(w, row, ToUpgrade(u.(role := DRIVER)), input);
      UpgradeAlone(SaveDriver(w, row), u.(role := DRIVER), input);
    }
  }

  lemma UpgradeAlone(w: World, u: User, input: Input)
    ensures Agrees(Alone(w, UpgradeUser(u), input), (IssueToken(SaveUser(w, u), u.username, DRIVER), Finished))
  {
    hide Alone, SaveUser, IssueToken;
    OneStep(w, UpgradeUser(u), input);
    LastStep(SaveUser(w, u), Issue(u.username, DRIVER), input);
  }

  /** login: the token issued has the stored role. */
  lemma LoginAlone(w: World, user: Id, input: Input)
    ensures var (w', t') := Alone(w, LoginRead(user), input);
            if user in w.users then
              t' == Done(Finished) && w' == w.(tokens := w.tokens + {Token(w.users[user].username, w.users[user].role)})
            else t' == Done(Refused(401)) && w' == w
  {
    hide Alone;
    if user in w.users {
      OneStep(w, LoginRead(user), input);
      LastStep(w, Issue(w.users[user].username, w.users[user].role), input);
    } else {
      LastStep(w, LoginRead(user), input);
    }
  }

  /** switch-mode to DRIVER: a DRIVER token for a stored DRIVER, and none for anybody else. */
  lemma SwitchAlone(w: World, user: Id, input: Input)
    ensures var (w', t') := Alone(w, SwitchRead(user), input);
            if user !in w.users then t' == Done(Refused(401)) && w' == w
            else if w.users[user].role != DRIVER then t' == Done(Refused(403)) && w' == w
            else t' == Done(Finished) && w' == w.(tokens := w.tokens + {Token(w.users[user].username, DRIVER)})
  {
    hide Alone;
    if user in w.users && w.users[user].role == DRIVER {
      OneStep(w, SwitchRead(user), input);
      LastStep(w, Issue(w.users[user].username, DRIVER), input);
    } else {
      LastStep(w, SwitchRead(user), input);
    }
  }

  lemma RequestAlone(w: World, rider: Id, trip: Trip, input: Input)
    requires ValidTrip(trip) && input.uuid !in w.rides
    requires Answers(w.located.Keys, SURGE_SEARCH_RADIUS_KM, input.reply)
    ensures Agrees(Alone(w, RequestCheck(rider, trip), input),
                   Serial.RequestRide(w, rider, trip, input.reply, input.uuid))
  {
    hide Alone, HasActiveRide, PendingNear, KeepAvailable, Answers, Live, Lookup, ComputeMultiplier, FareCents,
      StoreSurge;
    if HasActiveRide(w, rider) {
      LastStep(w, RequestCheck(rider, trip), input);
    } else {
      var at, pending, free := w.now, PendingNear(w, trip.pickup), |KeepAvailable(input.reply, w.available)|;
      OneStep(w, RequestCheck(rider, trip), input);
      OneStep(w, RequestPending(rider, trip, at), input);
      OneStep(w, RequestSearch(rider, trip, at, pending), input);
      OneStep(w, RequestFilter(rider, trip, at, pending, input.reply), input);
      SurgeAlone(w, rider, trip, pending, free, input);
    }
  }

  lemma SurgeAlone(w: World, rider: Id, trip: Trip, pending: nat, free: nat, input: Input)
    requires ValidTrip(trip) && input.uuid !in w.rides
    ensures var (w1, m) := Serial.ServeSurge(w, trip.cell, pending, free);
            Alone(w, RequestCacheGet(rider, trip, w.now, pending, free), input) ==
            if m.None? then (w1, Done(Failed))
            else Alone(w1, RequestSave(rider, trip, w.now, m.value, w.now), input)
    ensures var (w1, m) := Serial.ServeSurge(w, trip.cell, pending, free);
            m.Some? ==>
              var ride := NewRide(input.uuid, rider, trip, FareCents(trip.distance, m.value), w.now);
              Agrees(Alone(w1, RequestSave(rider, trip, w.now, m.value, w.now), input),
                     (PublishRequested(SaveNew(w1, ride, Quotation(trip, m.value, w.now)), input.uuid),
                      Granted(ride)))
  {
    hide Alone, ComputeMultiplier, FareCents, Put, Parse;
    var t := RequestCacheGet(rider, trip, w.now, pending, free);
    var (w1, m) := Serial.ServeSurge(w, trip.cell, pending, free);
    if !Live(w.surge, trip.cell, w.now) {
      OneStep(w, t, input);
      OneStep(w, RequestCacheSet(rider, trip, w.now, pending, free), input);
    } else if m.None? {
      LastStep(w, t, input);
    } else {
      OneStep(w, t, input);
    }
    if m.Some? {
      SaveRequestAlone(w1, rider, trip, w.now, m.value, w.now, input);
    }
  }

  lemma SaveRequestAlone(w: World, rider: Id, trip: Trip, at: nat, m: Decimal, servedAt: nat, input: Input)
    requires ValidTrip(trip) && input.uuid !in w.rides
    ensures var ride := NewRide(input.uuid, rider, trip, FareCents(trip.distance, m), at);
            Agrees(Alone(w, RequestSave(rider, trip, at, m, servedAt), input),
                   (PublishRequested(SaveNew(w, ride, Quotation(trip, m, servedAt)), input.uuid),
                    Granted(ride)))
  {
    hide Alone, FareCents;
    var ride := NewRide(input.uuid, rider, trip, FareCents(trip.distance, m), at);
    OneStep(w, RequestSave(rider, trip, at, m, servedAt), input);
    LastStep(SaveNew(w, ride, Quotation(trip, m, servedAt)), RequestPublish(ride), input);
  }

  lemma {:induction false} RetryPublishAlone(w: World, ids: seq<Id>, input: Input)
    ensures Agrees(Alone(w, RetryPublish(ids), input), (w.(requested := w.requested + ids), Finished))
    decreases |ids|
  {
    hide Alone;
    if ids == [] {
      LastStep(w, RetryPublish(ids), input);
      assert w.requested + ids == w.requested;
    } else {
      OneStep(w, RetryPublish(ids), input);
      RetryPublishAlone(PublishRequested(w, ids[0]), ids[1..], input);
      assert w.requested + [ids[0]] + ids[1..] == w.requested + ids;
    }
  }

  /** retry_once: whatever order the stale rows come in, it publishes each of them once more,
      and nothing else. */
  lemma RetryAlone(w: World, input: Input)
    requires Stale(w, input.ids)
    ensures var (w1, t1) := StepTask(w, RetryFind, input);
            Agrees(Alone(w1, t1, input), (w.(requested := w.requested + input.ids), Finished))
    ensures forall id :: id in input.ids <==>
              id in w.rides && w.rides[id].status == REQUESTED && w.rides[id].requestedAt + 120 < w.now
    ensures forall i, j :: 0 <= i < j < |input.ids| ==> input.ids[i] != input.ids[j]
  {
    hide Alone;
    RetryPublishAlone(w, input.ids, input);
  }

  // ---------- all of them ----------

  /** A handler run without interruption leaves the world, and answers, exactly as the serial
      call does: every command, every world, every branch. */
  lemma UninterruptedIsSerial(w: World, c: Serial.Command, input: Input)
    requires Serial.Possible(w, c) && !c.DoWait? && Supplies(input, c)
    requires c.DoRegisterDriver? ==> w.users[c.user].id == c.user
    ensures Alone(w, Handler(w, c), input) == (Serial.Serve(w, c).0, Done(Serial.Serve(w, c).1))
  {
    hide Alone, Serial.SignUp, Serial.RegisterDriver, Serial.GoOnline, Serial.GoOffline, Serial.UpdateLocation,
      Serial.RequestRide, Serial.AcceptRide, Serial.StartRide, Serial.CompleteRide, Serial.CancelRide, Serial.Rate;
    match c
    case DoSignUp(username, _) => SignUpAlone(w, username, input);
    case DoRegisterDriver(user, vehicle, plate) => RegisterAlone(w, user, vehicle, plate, input);
    case DoOnline(user, at) => OnlineAlone(w, user, at, input);
    case DoOffline(user) => OfflineAlone(w, user, input);
    case DoLocation(user, at, _) => LocationAlone(w, user, at, input);
    case DoRequest(user, trip, _, _) => RequestAlone(w, user, trip, input);
    case DoAccept(user, ride) => AcceptAlone(w, ride, user, input);
    case DoStart(user, ride) => StartAlone(w, ride, user, input);
    case DoComplete(user, ride) => CompleteAlone(w, ride, user, input);
    case DoCancel(user, ride) => CancelAlone(w, ride, user, input);
    case DoRate(user, ride, score) => RateAlone(w, ride, user, score, input);
  }
}

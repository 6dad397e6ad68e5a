/** What every serial run keeps about ratings: who rates whom, and that the counters and
    rounded averages on users and drivers are those of the ratings table. */
module SerialRatings {
  import opened Models
  import opened Dispatch
  import opened RatingMath
  import opened Worlds
  import opened Serial
  import opened SerialRides

  /** The scores given to a user, oldest first. */
  function ScoresTo(ratings: seq<Rating>, user: Id): seq<nat> {
    if ratings == [] then []
    else
      var init, last := ScoresTo(ratings[..|ratings| - 1], user), ratings[|ratings| - 1];
      if last.toUser == user then init + [last.score] else init
  }

  /** SELECT COUNT(*) FROM ratings WHERE to_user_id = user, migration 0003's backfill. */
  function CountTo(ratings: seq<Rating>, user: Id): nat {
    if ratings == [] then 0
    else CountTo(ratings[..|ratings| - 1], user) + if ratings[|ratings| - 1].toUser == user then 1 else 0
  }

  function UserTally(u: User): Tally { Tally(u.avgRating, u.ratingCount) }
  function DriverTally(d: Driver): Tally { Tally(d.avgRating, d.ratingCount) }

  /** The rider rates the driver, and anybody else who rates is the driver and rates the rider. */
  predicate RatesTheOther(r: Rating, ride: Ride) {
    if r.fromUser == ride.rider then Some(r.toUser) == ride.driver
    else Some(r.fromUser) == ride.driver && r.toUser == ride.rider
  }

  /** A rating is by one participant of a completed ride, of the other, with a score 1..5. */
  predicate JudgedOne(r: Rating, rides: map<Id, Ride>, users: map<Id, User>) {
    && r.rideId in rides && rides[r.rideId].status == COMPLETED
    && RatesTheOther(r, rides[r.rideId])
    && r.toUser in users && 1 <= r.score <= 5
  }

  predicate Judged(ratings: seq<Rating>, rides: map<Id, Ride>, users: map<Id, User>) {
    forall i :: 0 <= i < |ratings| ==> JudgedOne(ratings[i], rides, users)
  }

  predicate PairsUnique(ratings: seq<Rating>) {
    forall i, j :: 0 <= i < j < |ratings| ==>
      ratings[i].rideId != ratings[j].rideId || ratings[i].fromUser != ratings[j].fromUser
  }

  /** A user's columns are the running mean of all scores to them, a driver's that of the
      scores to them since their profile was created. */
  predicate Tallied(w: World) {
    && (forall u :: u in w.users ==> UserTally(w.users[u]) == RunningMean(ScoresTo(w.ratings, u)))
    && (forall d :: d in w.drivers ==>
          d in w.born && w.born[d] <= |w.ratings|
          && DriverTally(w.drivers[d]) == RunningMean(ScoresTo(w.ratings[w.born[d]..], d)))
  }

  ghost predicate RatingsSound(w: World) {
    Sound(w) && Judged(w.ratings, w.rides, w.users) && PairsUnique(w.ratings) && Tallied(w)
  }

  // ---------- calls that rate nobody ----------

  /** No rating is added, existing tallies stay, and new users and drivers start unrated. */
  predicate TalliesKept(w: World, w': World) {
    && w'.ratings == w.ratings
    && (forall u :: u in w.users ==> u in w'.users && UserTally(w'.users[u]) == UserTally(w.users[u]))
    && (forall u :: u in w'.users && u !in w.users ==> UserTally(w'.users[u]) == NoRatings)
    && (forall d :: d in w.drivers ==> d in w'.drivers && DriverTally(w'.drivers[d]) == DriverTally(w.drivers[d]))
    && (forall d :: d in w.born ==> d in w'.born && w'.born[d] == w.born[d])
    && (forall d :: d in w'.drivers && d !in w.drivers ==>
          DriverTally(w'.drivers[d]) == NoRatings && d in w'.born && w'.born[d] == |w.ratings|)
  }

  lemma {:induction false} NoScores(ratings: seq<Rating>, user: Id)
    requires forall i :: 0 <= i < |ratings| ==> ratings[i].toUser != user
    ensures ScoresTo(ratings, user) == []
  {
    if ratings != [] {
      NoScores(ratings[..|ratings| - 1], user);
    }
  }

  lemma KeptTallied(w: World, w': World)
    requires Tallied(w) && TalliesKept(w, w') && Judged(w.ratings, w.rides, w.users)
    ensures Tallied(w')
  {
    hide RunningMean;
    forall u | u in w'.users
      ensures UserTally(w'.users[u]) == RunningMean(ScoresTo(w'.ratings, u))
    {
      if u !in w.users {
        NoScores(w.ratings, u);
        NoMean();
      }
    }
    forall d | d in w'.drivers
      ensures d in w'.born && w'.born[d] <= |w'.ratings|
      ensures DriverTally(w'.drivers[d]) == RunningMean(ScoresTo(w'.ratings[w'.born[d]..], d))
    {
      if d !in w.drivers {
        assert w.ratings[|w.ratings|..] == [];
        NoMean();
      }
    }
  }

  lemma NoMean()
    ensures RunningMean([]) == NoRatings
  {
  }

  /** Profiles and their birth marks go together. */
  predicate Born(w: World) { w.born.Keys == w.drivers.Keys }

  /** Nothing that matters to tallies differs. */
  predicate SameTables(w: World, w': World) {
    w'.ratings == w.ratings && w'.users == w.users && w'.drivers == w.drivers && w'.born == w.born
  }

  lemma NothingKeeps(w: World, w': World)
    requires Born(w) && SameTables(w, w')
    ensures TalliesKept(w, w') && Born(w')
  {
  }

  lemma SavedDriverKeeps(w: World, d: Driver, w': World)
    requires Born(w) && SameTables(SaveDriver(w, d), w')
    requires d.userId in w.drivers ==> DriverTally(d) == DriverTally(w.drivers[d.userId])
    requires d.userId !in w.drivers ==> DriverTally(d) == NoRatings
    ensures TalliesKept(w, w') && Born(w')
  {
  }

  lemma MarkKeeps(w: World, d: Id, flag: bool, w': World)
    requires Sound(w) && Born(w) && d in w.drivers
    requires SameTables(SaveDriver(w, w.drivers[d].(isAvailable := flag)), w')
    ensures TalliesKept(w, w') && Born(w')
  {
    hide TalliesKept;
    SavedDriverKeeps(w, w.drivers[d].(isAvailable := flag), w');
  }

  lemma AcceptKeeps(w: World, ride: Id, driver: Id)
    requires Sound(w) && Born(w)
    ensures TalliesKept(w, AcceptRide(w, ride, driver).0) && Born(AcceptRide(w, ride, driver).0)
  {
    hide TalliesKept, Sound, Born;
    var (w', answer) := AcceptRide(w, ride, driver);
    if answer.Granted? {
      MarkKeeps(w, driver, false, w');
    } else {
      NothingKeeps(w, w');
    }
  }

  lemma CompleteKeeps(w: World, ride: Id, driver: Id)
    requires Sound(w) && Born(w)
    ensures TalliesKept(w, CompleteRide(w, ride, driver).0) && Born(CompleteRide(w, ride, driver).0)
  {
    hide TalliesKept, Born;
    var (w', answer) := CompleteRide(w, ride, driver);
    if answer.Granted? {
      MarkKeeps(w, driver, true, w');
    } else {
      NothingKeeps(w, w');
    }
  }

  lemma CancelKeeps(w: World, ride: Id, user: Id)
    requires Sound(w) && Born(w)
    ensures TalliesKept(w, CancelRide(w, ride, user).0) && Born(CancelRide(w, ride, user).0)
  {
    hide TalliesKept, Sound, Born;
    var (w', answer) := CancelRide(w, ride, user);
    if answer.Granted? && w.rides[ride].driver.Some? {
      MarkKeeps(w, w.rides[ride].driver.value, true, w');
    } else {
      NothingKeeps(w, w');
    }
  }

  lemma RegisterKeeps(w: World, user: Id, vehicle: string, plate: string)
    requires Sound(w) && Born(w) && user in w.users
    ensures TalliesKept(w, RegisterDriver(w, user, vehicle, plate).0)
    ensures Born(RegisterDriver(w, user, vehicle, plate).0)
  {
    hide TalliesKept;
    var w' := RegisterDriver(w, user, vehicle, plate).0;
    if user in w.drivers {
      NothingKeeps(w, w');
    } else {
      var w1 := SaveDriver(w, NewDriver(user, vehicle, plate));
      SavedDriverKeeps(w, NewDriver(user, vehicle, plate), w1);
      RoleKeeps(w, w1, w.users[user].(role := DRIVER), w');
    }
  }

  lemma RoleKeeps(w: World, w1: World, u: User, w': World)
    requires TalliesKept(w, w1) && Born(w1) && w1.users == w.users && SameTables(SaveUser(w1, u), w')
    requires u.id in w.users && UserTally(u) == UserTally(w.users[u.id])
    ensures TalliesKept(w, w') && Born(w')
  {
  }

  lemma OnlineKeeps(w: World, user: Id, at: Point)
    requires Sound(w) && Born(w)
    ensures TalliesKept(w, GoOnline(w, user, at).0) && Born(GoOnline(w, user, at).0)
    ensures TalliesKept(w, GoOffline(w, user).0) && Born(GoOffline(w, user).0)
  {
    hide TalliesKept, Sound, Born;
    if user in w.drivers {
      MarkKeeps(w, user, true, GoOnline(w, user, at).0);
      MarkKeeps(w, user, false, GoOffline(w, user).0);
    } else {
      NothingKeeps(w, w);
    }
  }

  lemma StartKeeps(w: World, ride: Id, driver: Id)
    requires Born(w)
    ensures TalliesKept(w, StartRide(w, ride, driver).0) && Born(StartRide(w, ride, driver).0)
  {
    hide TalliesKept, Born, Started;
    var (w', answer) := StartRide(w, ride, driver);
    if answer.Granted? {
      NothingKeeps(w, SaveRide(w, Started(w.rides[ride])));
    } else {
      NothingKeeps(w, w');
    }
  }

  lemma LocationKeeps(w: World, user: Id, at: Point, held: Option<Id>)
    requires Born(w)
    requires user in w.drivers ==> FirstHeld(w, user, held)
    ensures TalliesKept(w, UpdateLocation(w, user, at, held).0) && Born(UpdateLocation(w, user, at, held).0)
  {
    hide TalliesKept, Born;
    NothingKeeps(w, UpdateLocation(w, user, at, held).0);
  }

  lemma RequestKeeps(w: World, rider: Id, trip: Trip, reply: seq<Hit>, uuid: Id)
    requires Born(w) && ValidTrip(trip)
    ensures TalliesKept(w, RequestRide(w, rider, trip, reply, uuid).0)
    ensures Born(RequestRide(w, rider, trip, reply, uuid).0)
  {
    hide TalliesKept, Born, RequestRide;
    var r := RequestEffect(w, rider, trip, reply, uuid);
    NothingKeeps(w, RequestRide(w, rider, trip, reply, uuid).0);
  }

  lemma SignUpKeeps(w: World, username: string, uuid: Id)
    requires Born(w) && uuid !in w.users
    ensures TalliesKept(w, SignUp(w, username, uuid).0) && Born(SignUp(w, username, uuid).0)
  {
    hide SaveUser, IssueToken, UsernameTaken, TalliesKept, Born;
    var u := User(uuid, username, RIDER, None, 0);
    NothingKeeps(w, w);
    SaveUserEffect(w, u);
    IssueEffect(SaveUser(w, u), username, RIDER);
    NewUserKeeps(w, u, IssueToken(SaveUser(w, u), username, RIDER));
  }

  lemma IssueEffect(w: World, username: string, role: Role)
    ensures SameTables(w, IssueToken(w, username, role))
  {
  }

  lemma NewUserKeeps(w: World, u: User, w': World)
    requires Born(w) && u.id !in w.users && UserTally(u) == NoRatings
    requires w'.ratings == w.ratings && w'.users == w.users[u.id := u] && w'.drivers == w.drivers && w'.born == w.born
    ensures TalliesKept(w, w') && Born(w')
  {
  }

  lemma ServeKeeps(w: World, c: Command)
    requires Sound(w) && Born(w) && Possible(w, c) && !c.DoRate?
    ensures TalliesKept(w, Serve(w, c).0) && Born(Serve(w, c).0)
  {
    hide TalliesKept, RequestRide, AcceptRide, CompleteRide, CancelRide, RegisterDriver, GoOnline, GoOffline, SignUp,
      StartRide, UpdateLocation, Born, Sound;
    match c
    case DoRequest(user, trip, reply, uuid) =>
      RequestKeeps(w, user, trip, reply, uuid);
    case DoAccept(user, ride) => AcceptKeeps(w, ride, user);
    case DoComplete(user, ride) => CompleteKeeps(w, ride, user);
    case DoCancel(user, ride) => CancelKeeps(w, ride, user);
    case DoRegisterDriver(user, vehicle, plate) => RegisterKeeps(w, user, vehicle, plate);
    case DoSignUp(username, uuid) => SignUpKeeps(w, username, uuid);
    case DoOnline(user, at) => OnlineKeeps(w, user, at);
    case DoOffline(user) => OnlineKeeps(w, user, Point(0.0, 0.0));
    case DoLocation(user, at, held) => LocationKeeps(w, user, at, held);
    case DoStart(user, ride) => StartKeeps(w, ride, user);
    case DoWait(seconds) => NothingKeeps(w, w.(now := w.now + seconds));
  }

  /** Rated rides are completed, so their rows stay, and with them the judgements. */
  lemma JudgedKept(w: World, c: Command)
    requires RatingsSound(w) && Possible(w, c)
    requires forall u :: u in w.users ==> u in Serve(w, c).0.users
    ensures Judged(w.ratings, Serve(w, c).0.rides, Serve(w, c).0.users)
  {
    hide Serve, Sound, Tallied, PairsUnique;
    forall i | 0 <= i < |w.ratings|
      ensures JudgedOne(w.ratings[i], Serve(w, c).0.rides, Serve(w, c).0.users)
    {
      assert JudgedOne(w.ratings[i], w.rides, w.users);
      CompletedIsFinal(w, c, w.ratings[i].rideId);
    }
  }

  // ---------- rate ----------

  lemma ScoresAppend(ratings: seq<Rating>, r: Rating, user: Id)
    ensures ScoresTo(ratings + [r], user) ==
            if r.toUser == user then ScoresTo(ratings, user) + [r.score] else ScoresTo(ratings, user)
  {
    assert (ratings + [r])[..|ratings|] == ratings;
  }

  lemma MeanAppend(ratings: seq<Rating>, r: Rating, user: Id)
    ensures RunningMean(ScoresTo(ratings + [r], user)) ==
            if r.toUser == user then AddScore(RunningMean(ScoresTo(ratings, user)), r.score)
            else RunningMean(ScoresTo(ratings, user))
  {
    ScoresAppend(ratings, r, user);
    Append(ScoresTo(ratings, user), r.score);
  }

  /** After a rating is inserted and both rows of the rated user are saved. */
  lemma RatedTallied(w: World, r: Rating)
    requires Tallied(w) && Keyed(w.rides, w.drivers, w.users)
    ensures Tallied(ScoreUser(ScoreDriver(AddRating(w, r), r.toUser, r.score), r.toUser, r.score))
  {
    hide ScoreUser, ScoreDriver, AddRating, Tallied;
    var w' := ScoreUser(ScoreDriver(AddRating(w, r), r.toUser, r.score), r.toUser, r.score);
    RateEffect(w, r);
    RatedColumns(w, r, w');
  }

  lemma RatedColumns(w: World, r: Rating, w': World)
    requires Tallied(w)
    requires w'.ratings == w.ratings + [r] && w'.born == w.born
    requires w'.users == if r.toUser in w.users then w.users[r.toUser := RatedUser(w.users[r.toUser], r.score)]
                         else w.users
    requires w'.drivers == if r.toUser in w.drivers
                           then w.drivers[r.toUser := RatedDriver(w.drivers[r.toUser], r.score)]
                           else w.drivers
    ensures Tallied(w')
  {
    hide RunningMean, ScoresTo;
    forall u | u in w'.users
      ensures UserTally(w'.users[u]) == RunningMean(ScoresTo(w'.ratings, u))
    {
      MeanAppend(w.ratings, r, u);
    }
    forall d | d in w'.drivers
      ensures d in w'.born && w'.born[d] <= |w'.ratings|
      ensures DriverTally(w'.drivers[d]) == RunningMean(ScoresTo(w'.ratings[w'.born[d]..], d))
    {
      assert w'.ratings[w.born[d]..] == w.ratings[w.born[d]..] + [r];
      MeanAppend(w.ratings[w.born[d]..], r, d);
    }
  }

  lemma RateKeeps(w: World, ride: Id, from: Id, score: int)
    requires RatingsSound(w) && Born(w)
    ensures RatingsSound(Rate(w, ride, from, score).0) && Born(Rate(w, ride, from, score).0)
  {
    hide RunningMean, ScoresTo, HasRated, SavedAnswer;
    var (w', answer) := Rate(w, ride, from, score);
    RateSound(w, ride, from, score);
    if answer == Finished {
      var r := Rating(ride, from, Ratee(w.rides[ride], from).value, score);
      RatedTallied(w, r);
      RateAppends(w, ride, from, score, r);
    }
  }

  lemma RateAppends(w: World, ride: Id, from: Id, score: int, r: Rating)
    requires RatingsSound(w) && Born(w) && Keyed(w.rides, w.drivers, w.users)
    requires Rate(w, ride, from, score).1 == Finished
    requires r == Rating(ride, from, Ratee(w.rides[ride], from).value, score)
    ensures var w' := Rate(w, ride, from, score).0;
            w' == ScoreUser(ScoreDriver(AddRating(w, r), r.toUser, r.score), r.toUser, r.score)
            && Judged(w'.ratings, w'.rides, w'.users) && PairsUnique(w'.ratings) && Born(w')
  {
    hide RunningMean, ScoresTo, Tallied, RatedDriver, RatedUser, Sound, ScoreUser, ScoreDriver, AddRating;
    var w' := Rate(w, ride, from, score).0;
    RateEffect(w, r);
    JudgedMore(w.ratings, r, w.rides, w.users, w'.users);
    assert !HasRated(w.ratings, ride, from);
  }

  lemma JudgedMore(ratings: seq<Rating>, r: Rating, rides: map<Id, Ride>, users: map<Id, User>, users': map<Id, User>)
    requires Judged(ratings, rides, users) && JudgedOne(r, rides, users) && users'.Keys == users.Keys
    ensures Judged(ratings + [r], rides, users')
  {
    forall i | 0 <= i < |ratings|
      ensures JudgedOne(ratings[i], rides, users')
    {
      assert JudgedOne(ratings[i], rides, users);
    }
  }

  // ---------- every serial run ----------

  lemma ServeRatings(w: World, c: Command)
    requires RatingsSound(w) && Born(w) && Possible(w, c)
    ensures RatingsSound(Serve(w, c).0) && Born(Serve(w, c).0)
  {
    if c.DoRate? {
      hide Judged, Tallied, PairsUnique, Sound;
      RateKeeps(w, c.ride, c.user, c.score);
    } else {
      hide Serve, Sound, Judged, Tallied, PairsUnique;
      ServeSound(w, c);
      ServeKeeps(w, c);
      KeptTallied(w, Serve(w, c).0);
      JudgedKept(w, c);
    }
  }

  lemma {:induction false} RunsRateSoundly(run: seq<Command>)
    ensures RatingsSound(After(run)) && Born(After(run))
  {
    if run != [] {
      hide Serve, RatingsSound, Born;
      RunsRateSoundly(run[..|run| - 1]);
      var w := After(run[..|run| - 1]);
      if Possible(w, run[|run| - 1]) {
        ServeRatings(w, run[|run| - 1]);
      }
    }
  }

  lemma {:induction false} CountIsScores(ratings: seq<Rating>, user: Id)
    ensures CountTo(ratings, user) == |ScoresTo(ratings, user)|
  {
    if ratings != [] {
      CountIsScores(ratings[..|ratings| - 1], user);
    }
  }

  lemma {:induction false} CountOfSuffix(ratings: seq<Rating>, k: nat, user: Id)
    requires k <= |ratings|
    ensures CountTo(ratings[k..], user) <= CountTo(ratings, user)
  {
    if k < |ratings| {
      assert ratings[k..][..|ratings| - k - 1] == ratings[..|ratings| - 1][k..];
      CountOfSuffix(ratings[..|ratings| - 1], k, user);
    } else {
      assert ratings[k..] == [];
    }
  }

  /** The twin counters in every serial run: a user's count is the number of ratings to
      them, a driver's the number since their profile was created, which is never more; and
      an average is present exactly when something was counted. */
  lemma CountersAgree(run: seq<Command>, u: Id)
    requires u in After(run).users
    ensures var w := After(run); var user := w.users[u];
            user.ratingCount == CountTo(w.ratings, u)
            && (user.avgRating.None? <==> user.ratingCount == 0)
            && (u in w.drivers ==>
                  var driver := w.drivers[u];
                  u in w.born && w.born[u] <= |w.ratings|
                  && driver.ratingCount == CountTo(w.ratings[w.born[u]..], u) <= user.ratingCount
                  && (driver.avgRating.None? <==> driver.ratingCount == 0))
  {
    hide After;
    RunsRateSoundly(run);
    var w := After(run);
    CountIsLength(ScoresTo(w.ratings, u));
    CountIsScores(w.ratings, u);
    if u in w.drivers {
      var since := w.ratings[w.born[u]..];
      CountIsLength(ScoresTo(since, u));
      CountIsScores(since, u);
      CountOfSuffix(w.ratings, w.born[u], u);
    }
  }

  lemma {:induction false} ScoresValid(ratings: seq<Rating>, rides: map<Id, Ride>, users: map<Id, User>, user: Id)
    requires Judged(ratings, rides, users)
    ensures ValidScores(ScoresTo(ratings, user))
  {
    if ratings != [] {
      assert JudgedOne(ratings[|ratings| - 1], rides, users);
      ScoresValid(ratings[..|ratings| - 1], rides, users, user);
    }
  }

  /** The stored average of every rated user in every serial run lies in [1.00, 5.00] and
      within (n + 1)/4 hundredths of the true mean of the n scores they were given; and a
      driver's likewise, over the scores since their profile was created. */
  lemma AveragesDriftLittle(run: seq<Command>, u: Id)
    requires u in After(run).users
    ensures var w := After(run); var user := w.users[u];
            user.ratingCount > 0 ==>
              CloseToMean(user.avgRating, user.ratingCount, ScoresTo(w.ratings, u))
    ensures var w := After(run);
            u in w.drivers && w.drivers[u].ratingCount > 0 ==>
              var d := w.drivers[u];
              u in w.born && w.born[u] <= |w.ratings|
              && CloseToMean(d.avgRating, d.ratingCount, ScoresTo(w.ratings[w.born[u]..], u))
  {
    hide After;
    RunsRateSoundly(run);
    var w := After(run);
    MeanIsClose(w.ratings, w.rides, w.users, u);
    if u in w.drivers {
      MeanIsClose(w.ratings[w.born[u]..], w.rides, w.users, u);
    }
  }

  predicate CloseToMean(avg: Option<nat>, n: nat, scores: seq<nat>) {
    n == |scores| && avg.Some? && 100 <= avg.value <= 500 && Within(Drift(avg.value, n, Sum(scores)), n * (n + 1))
  }

  lemma MeanIsClose(ratings: seq<Rating>, rides: map<Id, Ride>, users: map<Id, User>, u: Id)
    requires Judged(ratings, rides, users)
    ensures var t := RunningMean(ScoresTo(ratings, u));
            t.count > 0 ==> CloseToMean(t.avg, t.count, ScoresTo(ratings, u))
  {
    var scores := ScoresTo(ratings, u);
    CountIsLength(scores);
    if scores != [] {
      ScoresValid(ratings, rides, users, u);
      MeanInRange(scores);
      DriftBound(scores);
    }
  }

  /** A ride is rated at most twice, by its two participants once each. */
  lemma AtMostTwoPerRide(run: seq<Command>, i: nat, j: nat, k: nat)
    requires i < j < k < |After(run).ratings|
    ensures var r := After(run).ratings;
            !(r[i].rideId == r[j].rideId == r[k].rideId)
  {
    hide After;
    RunsRateSoundly(run);
    var w := After(run);
    assert JudgedOne(w.ratings[i], w.rides, w.users);
    assert JudgedOne(w.ratings[j], w.rides, w.users);
    assert JudgedOne(w.ratings[k], w.rides, w.users);
  }

  /** Once a ride is rated, its row is the same completed row for ever after. */
  lemma {:induction false} RatedRideIsFrozen(run: seq<Command>, more: seq<Command>, i: nat)
    requires i < |After(run).ratings|
    ensures var ride := After(run).ratings[i].rideId;
            ride in After(run).rides && After(run).rides[ride].status == COMPLETED
            && ride in After(run + more).rides && After(run + more).rides[ride] == After(run).rides[ride]
  {
    hide Serve, Sound, Tallied, PairsUnique;
    RunsRateSoundly(run);
    assert JudgedOne(After(run).ratings[i], After(run).rides, After(run).users);
    if more == [] {
      assert run + more == run;
    } else {
      var init, c := more[..|more| - 1], more[|more| - 1];
      RatedRideIsFrozen(run, init, i);
      assert (run + more)[..|run + more| - 1] == run + init;
      RunsRateSoundly(run + init);
      if Possible(After(run + init), c) {
        CompletedIsFinal(After(run + init), c, After(run).ratings[i].rideId);
      }
    }
  }
}

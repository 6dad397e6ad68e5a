/** Which tables the steps of a handler leave alone, and which tasks they lead to. */
module MachineFrames {
  import opened Models
  import opened Surge
  import opened Fares
  import opened Pricing
  import opened Dispatch
  import opened Worlds
  import opened Machine
  import Serial

  /** Rides, accepts, quotes, the surge cache, the dispatched: sets and the clock. */
  predicate SameRideTables(w: World, w': World) {
    && w'.rides == w.rides && w'.commits == w.commits && w'.accepted == w.accepted && w'.quotes == w.quotes
    && w'.surge == w.surge && w'.writes == w.writes && w'.offers == w.offers && w'.now == w.now
  }

  /** Both records of who is available: the profiles and the Redis set. */
  predicate SameDriverTables(w: World, w': World) {
    w'.drivers == w.drivers && w'.available == w.available
  }

  predicate SameRatings(w: World, w': World) { w'.ratings == w.ratings }

  /** Users, driver profiles and tokens. */
  predicate SameAccounts(w: World, w': World) {
    w'.users == w.users && w'.drivers == w.drivers && w'.tokens == w.tokens
  }

  /** The four topics. */
  predicate SameTopics(w: World, w': World) {
    && w'.requested == w.requested && w'.accepted == w.accepted
    && w'.completed == w.completed && w'.cancelled == w.cancelled
  }

  /** What was sent into the streams. */
  predicate SameSignals(w: World, w': World) { w'.signals == w.signals }

  // ---------- single calls: logs ----------

  lemma NoLog(w: World)
    ensures SameTopics(w, w) && SameSignals(w, w)
  {
  }

  lemma UserLogs(w: World, u: User)
    ensures SameTopics(w, SaveUser(w, u)) && SameSignals(w, SaveUser(w, u))
  {
  }

  lemma IssueLogs(w: World, username: string, role: Role)
    ensures SameTopics(w, IssueToken(w, username, role)) && SameSignals(w, IssueToken(w, username, role))
  {
  }

  lemma RatingLogs(w: World, r: Rating)
    ensures SameTopics(w, AddRating(w, r)) && SameSignals(w, AddRating(w, r))
  {
  }

  lemma DriverRowLogs(w: World, d: Driver)
    ensures SameTopics(w, SaveDriverRow(w, d)) && SameSignals(w, SaveDriverRow(w, d))
  {
  }

  lemma SyncLogs(w: World, d: Driver)
    ensures SameTopics(w, SyncAvailable(w, d)) && SameSignals(w, SyncAvailable(w, d))
  {
  }

  lemma LocateLogs(w: World, located: map<Id, Point>)
    ensures SameTopics(w, w.(located := located)) && SameSignals(w, w.(located := located))
  {
  }

  lemma SurgeLogs(w: World, cell: Cell, pending: nat, free: nat, m: Decimal)
    ensures SameTopics(w, StoreSurge(w, cell, pending, free, m))
    ensures SameSignals(w, StoreSurge(w, cell, pending, free, m))
  {
  }

  lemma RideLogs(w: World, r: Ride)
    ensures SameTopics(w, SaveRide(w, r)) && SameSignals(w, SaveRide(w, r))
  {
  }

  lemma NewLogs(w: World, r: Ride, q: Quotation)
    ensures SameTopics(w, SaveNew(w, r, q)) && SameSignals(w, SaveNew(w, r, q))
  {
  }

  lemma MatchLogs(w: World, s: Ride, driver: Id)
    ensures SameTopics(w, SaveMatch(w, s, driver)) && SameSignals(w, SaveMatch(w, s, driver))
  {
  }

  lemma StreamLogs(w: World, r: Ride, at: Point, key: Id)
    ensures SameTopics(w, TellMoved(w, r, at)) && SameTopics(w, CloseStream(w, key)) && SameTopics(w, TellEta(w, r))
    ensures CloseStream(w, key).signals == w.signals + [StreamClosed(key)]
    ensures TellMoved(w, r, at).signals == w.signals + [DriverMoved(r.id, at, r.dropoff)]
  {
  }

  lemma PublishLogs(w: World, id: Id)
    ensures var w' := PublishRequested(w, id);
            SameTopics(w.(requested := w.requested + [id]), w') && SameSignals(w, w')
    ensures var w' := PublishAccepted(w, id);
            SameTopics(w.(accepted := w.accepted + [id]), w') && SameSignals(w, w')
    ensures var w' := PublishCompleted(w, id);
            SameTopics(w.(completed := w.completed + [id]), w') && SameSignals(w, w')
    ensures var w' := PublishCancelled(w, id);
            SameTopics(w.(cancelled := w.cancelled + [id]), w') && SameSignals(w, w')
  {
  }

  // ---------- single calls ----------

  lemma NoCall(w: World)
    ensures SameRideTables(w, w) && SameAccounts(w, w) && SameDriverTables(w, w)
    ensures SameRatings(w, w)
  {
  }

  lemma AddRatingFrame(w: World, r: Rating)
    ensures SameRideTables(w, AddRating(w, r)) && SameAccounts(w, AddRating(w, r))
    ensures SameDriverTables(w, AddRating(w, r)) && AddRating(w, r).ratings == w.ratings + [r]
  {
  }

  lemma SaveUserFrame(w: World, u: User)
    ensures SameRideTables(w, SaveUser(w, u)) && SameDriverTables(w, SaveUser(w, u))
    ensures SameRatings(w, SaveUser(w, u)) && SaveUser(w, u).users == w.users[u.id := u]
  {
  }

  lemma IssueFrame(w: World, username: string, role: Role)
    ensures SameRideTables(w, IssueToken(w, username, role))
    ensures SameDriverTables(w, IssueToken(w, username, role)) && SameRatings(w, IssueToken(w, username, role))
    ensures IssueToken(w, username, role).users == w.users
  {
  }

  lemma SaveDriverRowFrame(w: World, d: Driver)
    ensures SameRideTables(w, SaveDriverRow(w, d)) && SaveDriverRow(w, d).available == w.available
    ensures SaveDriverRow(w, d).drivers == w.drivers[d.userId := d] && SaveDriverRow(w, d).users == w.users
    ensures SameRatings(w, SaveDriverRow(w, d))
  {
  }

  lemma SyncFrame(w: World, d: Driver)
    ensures SameRideTables(w, SyncAvailable(w, d)) && SameAccounts(w, SyncAvailable(w, d))
    ensures SyncAvailable(w, d).available ==
            if d.isAvailable then w.available + {d.userId} else w.available - {d.userId}
    ensures SyncAvailable(w, d).drivers == w.drivers && SameRatings(w, SyncAvailable(w, d))
  {
  }

  lemma PublishFrame(w: World, id: Id)
    ensures SameRideTables(w, PublishRequested(w, id)) && SameAccounts(w, PublishRequested(w, id))
    ensures SameRideTables(w, PublishCompleted(w, id)) && SameAccounts(w, PublishCompleted(w, id))
    ensures SameRideTables(w, PublishCancelled(w, id)) && SameAccounts(w, PublishCancelled(w, id))
    ensures SameDriverTables(w, PublishRequested(w, id))
    ensures SameDriverTables(w, PublishCompleted(w, id)) && SameDriverTables(w, PublishCancelled(w, id))
    ensures SameRatings(w, PublishRequested(w, id))
  {
  }

  lemma LocateFrame(w: World, located: map<Id, Point>)
    ensures SameRideTables(w, w.(located := located)) && SameAccounts(w, w.(located := located))
    ensures SameDriverTables(w, w.(located := located)) && SameRatings(w, w.(located := located))
  {
  }

  lemma SignalFrame(w: World, r: Ride, at: Point, key: Id)
    ensures SameRideTables(w, TellMoved(w, r, at)) && SameAccounts(w, TellMoved(w, r, at))
    ensures SameDriverTables(w, TellMoved(w, r, at)) && SameRatings(w, TellMoved(w, r, at))
    ensures SameRideTables(w, CloseStream(w, key)) && SameAccounts(w, CloseStream(w, key))
  {
  }

  lemma ResumedFrame(w: World, k: Resume)
    ensures SameRideTables(w, Resumed(w, k)) && SameAccounts(w, Resumed(w, k)) && SameDriverTables(w, Resumed(w, k))
    ensures SameRatings(w, Resumed(w, k))
  {
  }

  lemma FramesJoin(w1: World, w2: World, w3: World)
    requires SameRideTables(w1, w2) && SameAccounts(w1, w2) && SameRideTables(w2, w3) && SameAccounts(w2, w3)
    ensures SameRideTables(w1, w3) && SameAccounts(w1, w3)
  {
  }

  // ---------- the handlers that never touch rides ----------

  /** Where rate goes on, but for its last save. */
  predicate Judging(t: Task) {
    t.RateExists? || t.RateInsert? || t.RateDriver? || t.RateUser? || t.Done?
    || (t.DriverSave? && t.resume.ToRateUser?)
  }

  lemma RateFrame(w: World, t: Task)
    requires IsRate(t)
    ensures SameRideTables(w, StepRate(w, t).0)
    ensures !t.RateUserSave? ==> SameAccounts(w, StepRate(w, t).0)
    ensures SameDriverTables(w, StepRate(w, t).0)
    ensures t.RateUserSave? ==> StepRate(w, t).0.users == w.users[t.account.id := t.account]
    ensures !t.RateInsert? ==> SameRatings(w, StepRate(w, t).0)
  {
    hide HasRated, Serial.Ratee, Serial.RefusedRatee, Serial.RatedDriver, Serial.RatedUser,
      AddRating, SaveUser, SameRideTables, SameAccounts, SameDriverTables;
    NoCall(w);
    if t.RateInsert? {
      AddRatingFrame(w, Rating(t.ride, t.from, t.to, t.score));
    } else if t.RateUserSave? {
      SaveUserFrame(w, t.account);
    }
  }

  lemma RateGoesOn(w: World, t: Task)
    requires IsRate(t)
    ensures Judging(StepRate(w, t).1) || (t.RateUser? && StepRate(w, t).1.RateUserSave?)
  {
    hide HasRated, Serial.Ratee, Serial.RefusedRatee, Serial.RatedDriver, Serial.RatedUser, AddRating, SaveUser;
  }

  /** Where the account handlers go on. */
  predicate Accounting(t: Task) {
    t.SignUpSave? || t.Issue? || t.Done? || (t.DriverSave? && t.resume.ToUpgrade?)
  }

  lemma AccountFrame(w: World, t: Task, input: Input)
    requires IsAccount(t)
    ensures SameRideTables(w, StepAccount(w, t, input).0)
    ensures !t.UpgradeUser? && !t.SignUpSave? && !t.Issue? ==> SameAccounts(w, StepAccount(w, t, input).0)
    ensures SameDriverTables(w, StepAccount(w, t, input).0) && SameRatings(w, StepAccount(w, t, input).0)
    ensures t.UpgradeUser? ==> StepAccount(w, t, input).0.users == w.users[t.account.id := t.account]
    ensures t.Issue? ==> StepAccount(w, t, input).0.users == w.users
  {
    hide UsernameTaken, SaveUser, IssueToken, SameRideTables, SameAccounts, SameDriverTables;
    NoCall(w);
    if t.UpgradeUser? {
      SaveUserFrame(w, t.account);
    } else if t.SignUpSave? {
      SaveUserFrame(w, User(input.uuid, t.username, RIDER, None, 0));
    } else if t.Issue? {
      IssueFrame(w, t.username, t.role);
    }
  }

  lemma AccountGoesOn(w: World, t: Task, input: Input)
    requires IsAccount(t)
    ensures Accounting(StepAccount(w, t, input).1)
  {
    hide UsernameTaken, SaveUser, IssueToken;
  }

  lemma RetryFrame(w: World, t: Task, input: Input)
    ensures SameRideTables(w, StepRetry(w, t, input).0) && SameAccounts(w, StepRetry(w, t, input).0)
    ensures SameDriverTables(w, StepRetry(w, t, input).0) && SameRatings(w, StepRetry(w, t, input).0)
    ensures var t' := StepRetry(w, t, input).1; t' == t || t'.RetryPublish? || t'.Done?
  {
    hide Stale, PublishRequested, SameRideTables, SameAccounts, SameDriverTables;
    NoCall(w);
    if t.RetryPublish? && t.ids != [] {
      PublishFrame(w, t.ids[0]);
    }
  }

  /** Where go_online, go_offline and update_location go on. */
  predicate Placing(t: Task) {
    t.OnlineLocate? || t.OfflineLocate? || t.LocationLocate? || t.LocationRide? || t.Done?
    || (t.MarkRead? && (t.resume.ToFinish? || t.resume.ToClose?))
  }

  lemma DriverFrame(w: World, t: Task, input: Input)
    requires IsDriver(t)
    ensures SameRideTables(w, StepDriver(w, t, input).0) && SameAccounts(w, StepDriver(w, t, input).0)
    ensures SameDriverTables(w, StepDriver(w, t, input).0) && SameRatings(w, StepDriver(w, t, input).0)
  {
    hide SameRideTables, SameAccounts, TellMoved, SameDriverTables;
    NoCall(w);
    if t.LocationRide? {
      if input.ids != [] && input.ids[0] in w.rides {
        SignalFrame(w, w.rides[input.ids[0]], t.place, 0);
      }
    } else {
      LocateFrame(w, StepDriver(w, t, input).0.located);
    }
  }

  lemma DriverGoesOn(w: World, t: Task, input: Input)
    requires IsDriver(t)
    ensures Placing(StepDriver(w, t, input).1)
  {
  }

  // ---------- requests, accepts and the rest of the lifecycle ----------

  lemma StoreSurgeFrame(w: World, cell: Cell, pending: nat, free: nat, m: Decimal)
    ensures var w' := StoreSurge(w, cell, pending, free, m);
            SameAccounts(w, w') && w'.rides == w.rides && w'.commits == w.commits && w'.accepted == w.accepted
            && w'.offers == w.offers && SameDriverTables(w, w') && SameRatings(w, w')
  {
  }

  lemma SaveNewFrame(w: World, r: Ride, q: Quotation)
    ensures var w' := SaveNew(w, r, q);
            SameAccounts(w, w') && w'.rides == w.rides[r.id := r] && w'.commits == w.commits
            && w'.accepted == w.accepted && w'.offers == w.offers && SameDriverTables(w, w') && SameRatings(w, w')
  {
  }

  lemma SaveRideFrame(w: World, r: Ride)
    ensures SaveRide(w, r).rides == w.rides[r.id := r] && SameAccounts(w, SaveRide(w, r))
    ensures SaveRide(w, r).offers == w.offers && SameDriverTables(w, SaveRide(w, r)) && SameRatings(w, SaveRide(w, r))
    ensures SaveRide(w, r).commits == w.commits
  {
  }

  /** A request's steps before and after its save; only the save adds a ride. */
  lemma RequestFrame(w: World, t: Task, input: Input)
    requires IsRequest(t)
    ensures var w' := StepRequest(w, t, input).0;
            SameAccounts(w, w') && w'.commits == w.commits && w'.accepted == w.accepted && w'.offers == w.offers
            && SameDriverTables(w, w') && SameRatings(w, w')
            && w'.rides == (if t.RequestSave? && StepRequest(w, t, input).1 != t
                            then w.rides[StepRequest(w, t, input).1.saved.id := StepRequest(w, t, input).1.saved]
                            else w.rides)
    ensures IsRequest(StepRequest(w, t, input).1) || StepRequest(w, t, input).1.Done?
    ensures StepRequest(w, t, input).1 != t && t.RequestSave? ==> StepRequest(w, t, input).1.RequestPublish?
  {
    hide HasActiveRide, PendingNear, KeepAvailable, Live, Lookup, ComputeMultiplier, FareCents,
      StoreSurge, SaveNew, PublishRequested, SameRideTables, SameAccounts, SameDriverTables;
    NoCall(w);
    if t.RequestCacheSet? {
      StoreSurgeFrame(w, t.trip.cell, t.pending, t.free, ComputeMultiplier(t.pending, t.free));
    } else if t.RequestSave? && input.uuid !in w.rides && ValidTrip(t.trip) {
      SaveNewFrame(w, NewRide(input.uuid, t.rider, t.trip, FareCents(t.trip.distance, t.multiplier), t.at),
                   Quotation(t.trip, t.multiplier, t.servedAt));
    } else if t.RequestPublish? {
      PublishedFrame(w, t.saved.id);
    }
  }

  lemma PublishedFrame(w: World, id: Id)
    ensures var w' := PublishRequested(w, id);
            SameAccounts(w, w') && w'.rides == w.rides && w'.commits == w.commits && w'.accepted == w.accepted
            && w'.offers == w.offers && SameDriverTables(w, w') && SameRatings(w, w')
  {
  }

  lemma AcceptLeaves(w: World, t: Task)
    requires IsAccept(t)
    ensures StepAccept(w, t).0.offers == w.offers && SameAccounts(w, StepAccept(w, t).0)
    ensures SameDriverTables(w, StepAccept(w, t).0) && SameRatings(w, StepAccept(w, t).0)
    ensures StepAccept(w, t).0.rides ==
            if t.AcceptSave? then w.rides[t.snapshot.id := Matched(t.snapshot, t.driver)] else w.rides
  {
    hide SaveMatch, PublishAccepted, SameAccounts, SameDriverTables;
    NoCall(w);
    if t.AcceptSave? {
      SaveMatchFrame(w, t.snapshot, t.driver);
    } else if t.AcceptPublish? {
      PublishAcceptedFrame(w, t.saved.id);
    }
  }

  lemma SaveMatchFrame(w: World, s: Ride, driver: Id)
    ensures SaveMatch(w, s, driver).offers == w.offers && SameAccounts(w, SaveMatch(w, s, driver))
    ensures SameDriverTables(w, SaveMatch(w, s, driver)) && SameRatings(w, SaveMatch(w, s, driver))
    ensures SaveMatch(w, s, driver).rides == w.rides[s.id := Matched(s, driver)]
  {
  }

  lemma PublishAcceptedFrame(w: World, id: Id)
    ensures PublishAccepted(w, id).offers == w.offers && SameAccounts(w, PublishAccepted(w, id))
    ensures SameDriverTables(w, PublishAccepted(w, id)) && SameRatings(w, PublishAccepted(w, id))
    ensures PublishAccepted(w, id).rides == w.rides
  {
  }

  lemma LifecycleLeaves(w: World, t: Task)
    requires IsLifecycle(t)
    ensures StepLifecycle(w, t).0.offers == w.offers && SameAccounts(w, StepLifecycle(w, t).0)
    ensures StepLifecycle(w, t).0.commits == w.commits
    ensures SameDriverTables(w, StepLifecycle(w, t).0) && SameRatings(w, StepLifecycle(w, t).0)
    ensures StepLifecycle(w, t).0.rides ==
            if t.StartSave? || t.CompleteSave? || t.CancelSave? then w.rides[t.row.id := t.row] else w.rides
  {
    hide SaveRide, PublishCompleted, PublishCancelled, SameAccounts, SameRideTables, SameDriverTables;
    NoCall(w);
    if t.StartSave? || t.CompleteSave? || t.CancelSave? {
      SaveRideFrame(w, t.row);
    } else if t.CompletePublish? || t.CancelPublish? {
      EndPublishFrame(w, t.saved.id);
    }
  }

  lemma EndPublishFrame(w: World, id: Id)
    ensures PublishCompleted(w, id).offers == w.offers && SameAccounts(w, PublishCompleted(w, id))
    ensures PublishCancelled(w, id).offers == w.offers && SameAccounts(w, PublishCancelled(w, id))
    ensures SameDriverTables(w, PublishCompleted(w, id)) && SameDriverTables(w, PublishCancelled(w, id))
    ensures PublishCompleted(w, id).rides == w.rides && PublishCancelled(w, id).rides == w.rides
    ensures SameRatings(w, PublishCompleted(w, id)) && SameRatings(w, PublishCancelled(w, id))
    ensures PublishCompleted(w, id).commits == w.commits && PublishCancelled(w, id).commits == w.commits
  {
  }

  // ---------- the consumer ----------

  /** All tables but the dispatched: sets. */
  predicate SameRows(w: World, w': World) {
    && w'.rides == w.rides && w'.commits == w.commits && w'.accepted == w.accepted && w'.quotes == w.quotes
    && w'.surge == w.surge && w'.writes == w.writes && w'.now == w.now && SameAccounts(w, w')
    && w'.available == w.available && SameRatings(w, w')
  }

  lemma OffersFrame(w: World, offers: Offers)
    ensures SameRows(w, w.(offers := offers))
  {
  }

  lemma SignalsFrame(w: World, signals: seq<Signal>)
    ensures SameRows(w, w.(signals := signals)) && w.(signals := signals).offers == w.offers
  {
  }

  lemma SameRowsHere(w: World)
    ensures SameRows(w, w)
  {
  }

  lemma EtaFrame(w: World, r: Ride)
    ensures SameRows(w, TellEta(w, r)) && TellEta(w, r).offers == w.offers
  {
    hide SameRows;
    SameRowsHere(w);
    if r.driver.Some? && r.driver.value in w.located {
      SignalsFrame(w, w.signals + [DriverEta(r.id, w.located[r.driver.value], r.pickup)]);
    }
  }

  lemma CloseFrame(w: World, key: Id)
    ensures SameRows(w, CloseStream(w, key)) && CloseStream(w, key).offers == w.offers
  {
    hide SameRows;
    SignalsFrame(w, w.signals + [StreamClosed(key)]);
  }

  /** Only recording and retracting touch the dispatched: sets. */
  lemma ConsumerFrame(w: World, c: Consumer, input: Input)
    ensures SameRows(w, StepConsumer(w, c, input).0)
    ensures !c.FanRecord? && !c.TellDelete? ==> StepConsumer(w, c, input).0.offers == w.offers
  {
    hide KeepAvailable, DriversIn, Record, Retract, SameRows, TellEta, CloseStream;
    SameRowsHere(w);
    if c.TellLocate? {
      EtaFrame(w, c.ride);
    } else if c.CompletedRead? || c.CancelledRead? {
      CloseFrame(w, c.id);
    } else if c.FanRecord? {
      OffersFrame(w, Record(w.offers, c.ride.id, c.nearby, w.now));
    } else if c.TellDelete? {
      OffersFrame(w, Retract(w.offers, c.id));
    }
  }

  // ---------- marking drivers ----------

  lemma MarkFrame(w: World, t: Task)
    requires IsMark(t)
    ensures SameRideTables(w, StepMark(w, t).0)
    ensures !t.DriverSave? ==> SameAccounts(w, StepMark(w, t).0)
    ensures t.MarkRead? ==> SameDriverTables(w, StepMark(w, t).0)
    ensures t.DriverSave? ==>
              StepMark(w, t).0.available == w.available && StepMark(w, t).1 == DriverSync(t.profile, t.resume)
    ensures t.DriverSave? ==> StepMark(w, t).0.drivers == w.drivers[t.profile.userId := t.profile]
    ensures StepMark(w, t).0.users == w.users && SameRatings(w, StepMark(w, t).0)
    ensures t.DriverSync? ==>
              StepMark(w, t).0.drivers == w.drivers && StepMark(w, t).1 == Continue(t.resume)
              && StepMark(w, t).0.available == (if t.profile.isAvailable then w.available + {t.profile.userId}
                                                else w.available - {t.profile.userId})
    ensures !StepMark(w, t).1.RequestSave? && (StepMark(w, t).1.DriverSync? ==> t.DriverSave?)
  {
    hide SaveDriverRow, SyncAvailable, Resumed, SameRideTables, SameAccounts;
    NoCall(w);
    match t
    case MarkRead(_, _, _) =>
    case DriverSave(profile, _) => SaveDriverRowFrame(w, profile);
    case DriverSync(profile, k) =>
      SyncFrame(w, profile);
      ResumedFrame(SyncAvailable(w, profile), k);
      FramesJoin(w, SyncAvailable(w, profile), Resumed(SyncAvailable(w, profile), k));
  }
}

/** What handlers send into the streams in every interleaving (kafka_consumer.py:97-143,
    services/driver.py:41-68): each action's events, written out, what each delivered message
    does when nothing comes between, and why a stream is ever closed. */
module MachineStreams {
  import opened Models
  import opened Surge
  import opened Fares
  import opened Pricing
  import opened Dispatch
  import opened Worlds
  import opened Machine
  import opened MachineFrames
  import opened MachineOffers
  import Contracts
  import Serial
  import Topics = MachineTopics

  // ---------- one action ----------

  /** The ride-accepted handler tells the ride's stream where its driver is, if that is known. */
  function Eta(w: World, r: Ride): seq<Signal> {
    if r.driver.Some? && r.driver.value in w.located then [DriverEta(r.id, w.located[r.driver.value], r.pickup)] else []
  }

  /** ride-completed closes the stream of a ride whose row says COMPLETED, and no other. */
  function ClosedCompleted(w: World, id: Id): seq<Signal> {
    if id in w.rides && w.rides[id].status == COMPLETED then [StreamClosed(id)] else []
  }

  /** ride-cancelled closes the stream of any stored ride. */
  function ClosedCancelled(w: World, id: Id): seq<Signal> {
    if id in w.rides then [StreamClosed(id)] else []
  }

  /** A location update tells the stream of a ride the driver has, if there is one. */
  function ToldMoved(w: World, user: Id, place: Point, ids: seq<Id>): seq<Signal> {
    if ids != [] && Contracts.Drives(w, user, ids[0]) then
      [DriverMoved(w.rides[ids[0]].id, place, w.rides[ids[0]].dropoff)]
    else []
  }

  /** Everything the action sends into streams. */
  function Emitted(c: Config, a: Action): seq<Signal> {
    match a
    case Step(i, input) =>
      if i >= |c.tasks| then []
      else if c.tasks[i].DriverSync? && c.tasks[i].resume.ToClose? then [StreamClosed(c.tasks[i].resume.driver)]
      else if c.tasks[i].LocationRide? then ToldMoved(c.w, c.tasks[i].user, c.tasks[i].place, input.ids)
      else []
    case Handle(_) =>
      if c.consumer.TellLocate? then Eta(c.w, c.consumer.ride)
      else if c.consumer.CompletedRead? then ClosedCompleted(c.w, c.consumer.id)
      else if c.consumer.CancelledRead? then ClosedCancelled(c.w, c.consumer.id)
      else []
    case _ => []
  }

  lemma MarkSends(w: World, t: Task)
    requires IsMark(t)
    ensures StepMark(w, t).0.signals
            == w.signals + if t.DriverSync? && t.resume.ToClose? then [StreamClosed(t.resume.driver)] else []
  {
    hide SaveDriverRow, SyncAvailable, CloseStream;
    if t.DriverSave? {
      DriverRowLogs(w, t.profile);
    } else if t.DriverSync? {
      SyncLogs(w, t.profile);
      if t.resume.ToClose? {
        Closes(SyncAvailable(w, t.profile), t.resume.driver);
      }
    }
  }

  lemma Closes(w: World, key: Id)
    ensures CloseStream(w, key) == w.(signals := w.signals + [StreamClosed(key)])
  {
  }

  lemma DriverSends(w: World, t: Task, input: Input)
    requires IsDriver(t)
    ensures StepDriver(w, t, input).0.signals
            == w.signals + if t.LocationRide? then ToldMoved(w, t.user, t.place, input.ids) else []
  {
    hide FirstHeld;
    if t.LocationRide? {
      HeldIsDriven(w, t.user, First(input.ids));
    }
  }

  lemma HeldIsDriven(w: World, user: Id, held: Option<Id>)
    ensures FirstHeld(w, user, held) && held.Some? ==> Contracts.Drives(w, user, held.value)
    ensures held.Some? && Contracts.Drives(w, user, held.value) ==> FirstHeld(w, user, held)
  {
  }

  lemma RequestSends(w: World, t: Task, input: Input)
    requires IsRequest(t)
    ensures StepRequest(w, t, input).0.signals == w.signals
  {
    hide HasActiveRide, PendingNear, KeepAvailable, Answers, Live, Lookup, ComputeMultiplier, FareCents, StoreSurge,
      SaveNew, PublishRequested;
    if t.RequestPublish? {
      PublishLogs(w, t.saved.id);
    } else if t.RequestCacheSet? {
      SurgeLogs(w, t.trip.cell, t.pending, t.free, ComputeMultiplier(t.pending, t.free));
    } else if t.RequestSave? && input.uuid !in w.rides && ValidTrip(t.trip) {
      NewLogs(w, NewRide(input.uuid, t.rider, t.trip, FareCents(t.trip.distance, t.multiplier), t.at),
              Quotation(t.trip, t.multiplier, t.servedAt));
    }
  }

  lemma AcceptSends(w: World, t: Task)
    requires IsAccept(t)
    ensures StepAccept(w, t).0.signals == w.signals
  {
    hide SaveMatch, PublishAccepted, Matched;
    if t.AcceptSave? {
      MatchLogs(w, t.snapshot, t.driver);
    } else if t.AcceptPublish? {
      PublishLogs(w, t.saved.id);
    }
  }

  lemma LifecycleSends(w: World, t: Task)
    requires IsLifecycle(t)
    ensures StepLifecycle(w, t).0.signals == w.signals
  {
    hide SaveRide, PublishCompleted, PublishCancelled, Started, Completed, Cancelled;
    if t.CompletePublish? || t.CancelPublish? {
      PublishLogs(w, t.saved.id);
    } else if t.StartSave? || t.CompleteSave? || t.CancelSave? {
      RideLogs(w, t.row);
    }
  }

  lemma RateSends(w: World, t: Task)
    requires IsRate(t)
    ensures StepRate(w, t).0.signals == w.signals
  {
    hide HasRated, Serial.Ratee, Serial.RefusedRatee, Serial.RatedDriver, Serial.RatedUser, AddRating, SaveUser;
    if t.RateInsert? {
      RatingLogs(w, Rating(t.ride, t.from, t.to, t.score));
    } else if t.RateUserSave? {
      UserLogs(w, t.account);
    }
  }

  lemma AccountSends(w: World, t: Task, input: Input)
    requires IsAccount(t)
    ensures StepAccount(w, t, input).0.signals == w.signals
  {
    hide UsernameTaken, SaveUser, IssueToken;
    if t.UpgradeUser? {
      UserLogs(w, t.account);
    } else if t.SignUpSave? {
      UserLogs(w, User(input.uuid, t.username, RIDER, None, 0));
    } else if t.Issue? {
      IssueLogs(w, t.username, t.role);
    }
  }

  lemma RetrySends(w: World, t: Task, input: Input)
    ensures StepRetry(w, t, input).0.signals == w.signals
  {
    hide Stale, PublishRequested;
    if t.RetryPublish? && t.ids != [] {
      PublishLogs(w, t.ids[0]);
    }
  }

  lemma StepSends(c: Config, i: nat, input: Input)
    requires i < |c.tasks| && !c.tasks[i].AcceptWait?
    ensures StepTask(c.w, c.tasks[i], input).0.signals == c.w.signals + Emitted(c, Step(i, input))
  {
    hide StepRequest, StepAccept, StepMark, StepLifecycle, StepDriver, StepRate, StepAccount, StepRetry, ToldMoved;
    var w, t := c.w, c.tasks[i];
    if IsRequest(t) {
      RequestSends(w, t, input);
    } else if IsAccept(t) {
      AcceptSends(w, t);
    } else if IsLifecycle(t) {
      LifecycleSends(w, t);
    } else if IsMark(t) {
      MarkSends(w, t);
    } else if IsDriver(t) {
      DriverSends(w, t, input);
    } else if IsRate(t) {
      RateSends(w, t);
    } else if IsAccount(t) {
      AccountSends(w, t, input);
    } else {
      RetrySends(w, t, input);
    }
  }

  /** One step of the consumer: what it sends, and nothing else changes but the dispatched: sets. */
  lemma HandleSends(c: Config, input: Input)
    ensures var w' := StepConsumer(c.w, c.consumer, input).0;
            w' == c.w.(signals := c.w.signals + Emitted(c, Handle(input)), offers := w'.offers)
  {
    hide KeepAvailable, DriversIn, Answers, Members, Record, Retract, TellEta, CloseStream, Eta;
    if c.consumer.TellLocate? {
      EtaSent(c.w, c.consumer.ride);
    } else if c.consumer.CompletedRead? || c.consumer.CancelledRead? {
      Closes(c.w, c.consumer.id);
      SentNothing(c.w);
    } else {
      SentNothing(c.w);
    }
  }

  lemma SentNothing(w: World)
    ensures w.(signals := w.signals + []) == w
  {
    assert w.signals + [] == w.signals;
  }

  /** Every action of every configuration sends exactly these events, in this order, after
      those sent before. */
  lemma NextSignals(c: Config, a: Action)
    ensures Next(c, a).w.signals == c.w.signals + Emitted(c, a)
  {
    hide StepTask, StepConsumer, Admit, Critical, Eta, ClosedCompleted, ClosedCancelled, ToldMoved;
    match a
    case Step(i, input) =>
      if i < |c.tasks| && !c.tasks[i].AcceptWait? {
        StepSends(c, i, input);
      }
    case Handle(input) => HandleSends(c, input);
    case _ =>
  }

  // ---------- delivered messages ----------

  /** A ride-completed message, in every configuration: whatever else is under way, exactly the
      close of the ride's stream is sent, if and only if the row read says COMPLETED. */
  lemma CompletedMessage(c: Config, index: nat, input: Input)
    requires c.consumer.Idle? && index < |c.w.completed|
    ensures var id := c.w.completed[index];
            Exec(c, [Consume(CompletedTopic, index)] + Handles(1, input)) ==
            c.(w := c.w.(signals := c.w.signals
                                    + if id in c.w.rides && c.w.rides[id].status == COMPLETED then [StreamClosed(id)]
                                      else []))
  {
    hide Exec, Next;
    Delivered(c, CompletedTopic, index);
    var c0 := c.(consumer := CompletedRead(c.w.completed[index]));
    ReadAndHandled(c, CompletedTopic, index, c0, 0, input);
    Handled1(c0, input);
  }

  /** A ride-cancelled message: if and only if the ride is stored. */
  lemma CancelledMessage(c: Config, index: nat, input: Input)
    requires c.consumer.Idle? && index < |c.w.cancelled|
    ensures var id := c.w.cancelled[index];
            Exec(c, [Consume(CancelledTopic, index)] + Handles(1, input)) ==
            c.(w := c.w.(signals := c.w.signals + if id in c.w.rides then [StreamClosed(id)] else []))
  {
    hide Exec, Next;
    Delivered(c, CancelledTopic, index);
    var c0 := c.(consumer := CancelledRead(c.w.cancelled[index]));
    ReadAndHandled(c, CancelledTopic, index, c0, 0, input);
    Handled1(c0, input);
  }

  /** Delivery, then n + 1 steps of the handler. */
  lemma ReadAndHandled(c: Config, topic: Topic, index: nat, c0: Config, n: nat, input: Input)
    requires Next(c, Consume(topic, index)) == c0
    ensures Exec(c, [Consume(topic, index)] + Handles(n + 1, input)) == Exec(Next(c0, Handle(input)), Handles(n, input))
    ensures Handles(0, input) == [] && Exec(Next(c0, Handle(input)), []) == Next(c0, Handle(input))
  {
    hide Next;
    OneAction(c, Consume(topic, index));
    ExecConcat(c, [Consume(topic, index)], Handles(n + 1, input));
    FirstHandle(c0, n, input);
  }

  lemma Handled1(c: Config, input: Input)
    requires c.consumer.CompletedRead? || c.consumer.CancelledRead?
    ensures var w := c.w; var id := c.consumer.id;
            var sent := if c.consumer.CompletedRead? then ClosedCompleted(w, id) else ClosedCancelled(w, id);
            Next(c, Handle(input)) == c.(w := w.(signals := w.signals + sent), consumer := Idle)
  {
    hide CloseStream;
    Closes(c.w, c.consumer.id);
    assert c.w.signals + [] == c.w.signals;
  }

  /** A ride-accepted message handled without interruption: the ride's stream gets one arrival
      time if its driver is located, every dispatched driver but the ride's own is told, and
      the ride's dispatched: set is gone. A message of no stored ride does nothing. */
  lemma AcceptedMessage(c: Config, index: nat, input: Input)
    requires c.consumer.Idle? && index < |c.w.accepted|
    ensures var id := c.w.accepted[index]; var message := [Consume(AcceptedTopic, index)];
            if id !in c.w.rides then Exec(c, message + Handles(1, input)) == c
            else
              var r := c.w.rides[id];
              var told := set d | d in Members(c.w.offers, r.id, c.w.now) && Some(d) != r.driver;
              var sent := if r.driver.Some? && r.driver.value in c.w.located
                          then [DriverEta(r.id, c.w.located[r.driver.value], r.pickup)] else [];
              Exec(c, message + Handles(4, input)) ==
              c.(w := c.w.(signals := c.w.signals + sent, offers := c.w.offers - {r.id}),
                 log := c.log.(told := c.log.told + [Told(r.id, told, c.w.now)],
                               handled := c.log.handled + [Accepted(r.id, c.w.now)]))
  {
    hide Exec, Members, Next;
    var id := c.w.accepted[index];
    Delivered(c, AcceptedTopic, index);
    var c0 := c.(consumer := TellRead(id));
    if id !in c.w.rides {
      ReadAndHandled(c, AcceptedTopic, index, c0, 0, input);
      NoRide(c0, input);
      assert c0.(consumer := Idle) == c;
    } else {
      ReadAndHandled(c, AcceptedTopic, index, c0, 3, input);
      TellSteps(c0, input);
      assert c0.(consumer := TellLocate(c.w.rides[id])) == Next(c0, Handle(input));
    }
  }

  lemma NoRide(c: Config, input: Input)
    requires c.consumer.TellRead? && c.consumer.id !in c.w.rides
    ensures Next(c, Handle(input)) == c.(consumer := Idle)
  {
  }

  lemma TellSteps(c: Config, input: Input)
    requires c.consumer.TellRead? && c.consumer.id in c.w.rides
    ensures Next(c, Handle(input)) == c.(consumer := TellLocate(c.w.rides[c.consumer.id]))
    ensures var r := c.w.rides[c.consumer.id]; var w := c.w;
            var told := set d | d in Members(w.offers, r.id, w.now) && Some(d) != r.driver;
            Exec(c.(consumer := TellLocate(r)), Handles(3, input)) ==
            c.(w := w.(signals := w.signals + Eta(w, r), offers := w.offers - {r.id}), consumer := Idle,
               log := c.log.(told := c.log.told + [Told(r.id, told, w.now)],
                             handled := c.log.handled + [Accepted(r.id, w.now)]))
  {
    hide Exec, Members;
    var r := c.w.rides[c.consumer.id];
    var c1 := c.(consumer := TellLocate(r));
    var c2 := c.(w := c.w.(signals := c.w.signals + Eta(c.w, r)), consumer := TellMembers(r));
    assert Next(c1, Handle(input)) == c2 by { EtaSent(c.w, r); }
    var c3 := Next(c2, Handle(input));
    FirstHandle(c1, 2, input);
    FirstHandle(c2, 1, input);
    FirstHandle(c3, 0, input);
    assert Handles(0, input) == [];
    NoMoreHandles(Next(c3, Handle(input)));
  }

  lemma EtaSent(w: World, r: Ride)
    ensures TellEta(w, r) == w.(signals := w.signals + Eta(w, r))
  {
    assert w.signals + [] == w.signals;
  }

  // ---------- why a stream is closed ----------

  /** Someone asked to take the driver offline. */
  predicate AskedOffline(actions: seq<Action>, driver: Id) {
    exists k :: 0 <= k < |actions| && OfflineCall(actions[k], driver)
  }

  predicate OfflineCall(a: Action, driver: Id) { a.Spawn? && a.call.CallOffline? && a.call.user == driver }

  /** At some moment the ride was stored as COMPLETED. */
  predicate WasCompleted(actions: seq<Action>, id: Id) {
    exists k :: 0 <= k <= |actions| && CompletedIn(Exec(Start, actions[..k]).w, id)
  }

  predicate CompletedIn(w: World, id: Id) { id in w.rides && w.rides[id].status == COMPLETED }

  /** The ride was completed, or its cancellation published, or a driver asked to go offline. */
  predicate MayClose(actions: seq<Action>, w: World, key: Id) {
    WasCompleted(actions, key) || key in w.cancelled || AskedOffline(actions, key)
  }

  /** The task is a go_offline of the driver that has not closed the stream yet. */
  predicate GoingOffline(t: Task, driver: Id) {
    match t
    case OfflineProfile(user) => user == driver
    case OfflineLocate(user) => user == driver
    case MarkRead(_, _, k) => k == ToClose(driver)
    case DriverSave(_, k) => k == ToClose(driver)
    case DriverSync(_, k) => k == ToClose(driver)
    case _ => false
  }

  ghost predicate TaskReason(actions: seq<Action>, t: Task) {
    forall d :: GoingOffline(t, d) ==> AskedOffline(actions, d)
  }

  predicate SignalReason(actions: seq<Action>, w: World, s: Signal) {
    s.StreamClosed? ==> MayClose(actions, w, s.key)
  }

  /** All closings so far, and all under way, have their reason. */
  ghost predicate Reasons(actions: seq<Action>, c: Config) {
    && (forall i :: 0 <= i < |c.tasks| ==> TaskReason(actions, c.tasks[i]))
    && (c.consumer.CancelledRead? ==> c.consumer.id in c.w.cancelled)
    && (forall j :: 0 <= j < |c.w.signals| ==> SignalReason(actions, c.w, c.w.signals[j]))
  }

  lemma OfflineStays(actions: seq<Action>, a: Action, driver: Id)
    ensures AskedOffline(actions, driver) ==> AskedOffline(actions + [a], driver)
    ensures OfflineCall(a, driver) ==> AskedOffline(actions + [a], driver)
  {
    if AskedOffline(actions, driver) {
      var k :| 0 <= k < |actions| && OfflineCall(actions[k], driver);
      assert (actions + [a])[k] == actions[k];
    }
    assert (actions + [a])[|actions|] == a;
  }

  lemma CompletedStays(actions: seq<Action>, a: Action, id: Id)
    ensures WasCompleted(actions, id) ==> WasCompleted(actions + [a], id)
    ensures CompletedIn(Exec(Start, actions).w, id) ==> WasCompleted(actions + [a], id)
  {
    hide Exec, CompletedIn;
    if WasCompleted(actions, id) {
      var k :| 0 <= k <= |actions| && CompletedIn(Exec(Start, actions[..k]).w, id);
      assert (actions + [a])[..k] == actions[..k];
    }
    assert (actions + [a])[..|actions|] == actions;
  }

  lemma ReasonStays(actions: seq<Action>, a: Action, w: World, w': World, s: Signal)
    requires SignalReason(actions, w, s) && w.cancelled <= w'.cancelled
    ensures SignalReason(actions + [a], w', s)
  {
    hide AskedOffline, WasCompleted;
    if s.StreamClosed? {
      OfflineStays(actions, a, s.key);
      CompletedStays(actions, a, s.key);
    }
  }

  /** A go_offline comes from a go_offline. */
  lemma OfflineBefore(w: World, t: Task, input: Input, driver: Id)
    requires !t.AcceptWait? && GoingOffline(StepTask(w, t, input).1, driver)
    ensures GoingOffline(t, driver)
  {
    hide StepRequest, StepAccept, StepMark, StepLifecycle, StepDriver, StepRate, StepAccount, StepRetry;
    if IsRequest(t) {
      RequestFrame(w, t, input);
    } else if IsAccept(t) {
      AcceptStaysOnline(w, t, driver);
    } else if IsMark(t) {
      MarkBefore(w, t, driver);
    } else if IsLifecycle(t) {
      LifecycleStaysOnline(w, t, driver);
    } else if IsDriver(t) {
      DriverBefore(w, t, input, driver);
    } else if IsRate(t) {
      RateGoesOn(w, t);
    } else if IsAccount(t) {
      AccountGoesOn(w, t, input);
    } else {
      RetryFrame(w, t, input);
    }
  }

  lemma AcceptStaysOnline(w: World, t: Task, driver: Id)
    requires IsAccept(t)
    ensures !GoingOffline(StepAccept(w, t).1, driver)
  {
    hide SaveMatch, PublishAccepted;
  }

  lemma MarkBefore(w: World, t: Task, driver: Id)
    requires IsMark(t) && GoingOffline(StepMark(w, t).1, driver)
    ensures GoingOffline(t, driver)
  {
    hide SaveDriverRow, SyncAvailable, Resumed;
  }

  lemma LifecycleStaysOnline(w: World, t: Task, driver: Id)
    requires IsLifecycle(t)
    ensures !GoingOffline(StepLifecycle(w, t).1, driver)
  {
    hide SaveRide, PublishCompleted, PublishCancelled;
  }

  lemma DriverBefore(w: World, t: Task, input: Input, driver: Id)
    requires IsDriver(t) && GoingOffline(StepDriver(w, t, input).1, driver)
    ensures GoingOffline(t, driver)
  {
    hide TellMoved, FirstHeld;
  }

  lemma NextTaskReason(actions: seq<Action>, c: Config, a: Action, i: nat)
    requires (forall j :: 0 <= j < |c.tasks| ==> TaskReason(actions, c.tasks[j])) && i < |Next(c, a).tasks|
    ensures TaskReason(actions + [a], Next(c, a).tasks[i])
  {
    hide AskedOffline, StepTask, StepConsumer, Critical, Admit, GoingOffline;
    var t' := Next(c, a).tasks[i];
    forall d | GoingOffline(t', d)
      ensures AskedOffline(actions + [a], d)
    {
      OfflineStays(actions, a, d);
      if a.Spawn? && i == |c.tasks| {
        AdmittedOffline(c.w, a.call, d);
      } else if a.Step? && a.task == i && !c.tasks[i].AcceptWait? {
        OfflineBefore(c.w, c.tasks[i], a.input, d);
        assert TaskReason(actions, c.tasks[i]);
      } else {
        NoOffline(d);
        assert TaskReason(actions, c.tasks[i]);
      }
    }
  }

  lemma AdmittedOffline(w: World, call: Call, driver: Id)
    requires Admit(w, call).Some? && GoingOffline(Admit(w, call).value, driver)
    ensures OfflineCall(Spawn(call), driver)
  {
    hide Authenticated;
  }

  lemma NoOffline(driver: Id)
    ensures !GoingOffline(Done(Failed), driver) && forall r, d :: !GoingOffline(AcceptReadRide(r, d), driver)
  {
  }

  /** What is sent now has its reason. */
  lemma SentReason(actions: seq<Action>, c: Config, a: Action, s: Signal)
    requires c == Exec(Start, actions) && Reasons(actions, c) && s in Emitted(c, a)
    ensures SignalReason(actions + [a], c.w, s)
  {
    hide AskedOffline, WasCompleted, Exec, Contracts.Drives;
    if s.StreamClosed? {
      OfflineStays(actions, a, s.key);
      CompletedStays(actions, a, s.key);
      if a.Step? {
        assert TaskReason(actions, c.tasks[a.task]);
        assert GoingOffline(c.tasks[a.task], s.key);
      } else if c.consumer.CompletedRead? {
        assert CompletedIn(c.w, s.key);
      }
    }
  }

  lemma CancelledGrows(c: Config, a: Action)
    ensures c.w.cancelled <= Next(c, a).w.cancelled
  {
    hide StepTask, StepConsumer, Admit, Critical;
    match a
    case Step(i, input) =>
      if i < |c.tasks| && !c.tasks[i].AcceptWait? {
        Topics.StepPublishes(c.w, c.tasks[i], input);
      }
    case Handle(input) => Topics.ConsumerPublishesNothing(c.w, c.consumer, input);
    case _ =>
  }

  lemma ConsumerReason(c: Config, a: Action)
    requires Next(c, a).consumer.CancelledRead?
    requires c.consumer.CancelledRead? ==> c.consumer.id in c.w.cancelled
    ensures Next(c, a).consumer.id in c.w.cancelled
  {
    hide StepTask, Admit, Critical, KeepAvailable, DriversIn, Answers, Record, Retract, TellEta, CloseStream;
  }

  lemma NextReasons(actions: seq<Action>, c: Config, a: Action)
    requires c == Exec(Start, actions) && Reasons(actions, c)
    ensures Reasons(actions + [a], Next(c, a))
  {
    hide Exec, Next, TaskReason, SignalReason, Emitted;
    var c' := Next(c, a);
    CancelledGrows(c, a);
    NextSignals(c, a);
    forall i | 0 <= i < |c'.tasks|
      ensures TaskReason(actions + [a], c'.tasks[i])
    {
      NextTaskReason(actions, c, a, i);
    }
    if c'.consumer.CancelledRead? {
      ConsumerReason(c, a);
    }
    forall j | 0 <= j < |c'.w.signals|
      ensures SignalReason(actions + [a], c'.w, c'.w.signals[j])
    {
      if j < |c.w.signals| {
        assert SignalReason(actions, c.w, c.w.signals[j]);
        ReasonStays(actions, a, c.w, c'.w, c.w.signals[j]);
      } else {
        SentReason(actions, c, a, c'.w.signals[j]);
        Onward(actions + [a], c.w, c'.w, c'.w.signals[j]);
      }
    }
  }

  lemma Onward(actions: seq<Action>, w: World, w': World, s: Signal)
    requires SignalReason(actions, w, s) && w.cancelled <= w'.cancelled
    ensures SignalReason(actions, w', s)
  {
    hide AskedOffline, WasCompleted;
  }

  lemma {:induction false} RunReasons(actions: seq<Action>)
    ensures Reasons(actions, Exec(Start, actions))
  {
    if actions != [] {
      hide Next, Reasons;
      var init, a := actions[..|actions| - 1], actions[|actions| - 1];
      RunReasons(init);
      NextReasons(init, Exec(Start, init), a);
      assert init + [a] == actions;
    }
  }

  /** Safety of streams: in every interleaving, whatever messages are redelivered and whatever
      rows are overwritten, a stream is closed only for a ride that was stored as COMPLETED at
      some moment of the run, for one whose cancellation was published, or for a driver who
      asked to go offline. A requested, matched or started ride keeps its stream. */
  lemma ClosedForAReason(actions: seq<Action>, j: nat)
    requires j < |Exec(Start, actions).w.signals| && Exec(Start, actions).w.signals[j].StreamClosed?
    ensures var key := Exec(Start, actions).w.signals[j].key;
            || (exists k :: 0 <= k <= |actions|
                            && (var rides := Exec(Start, actions[..k]).w.rides;
                                key in rides && rides[key].status == COMPLETED))
            || key in Exec(Start, actions).w.cancelled
            || (exists k :: 0 <= k < |actions| && actions[k].Spawn? && actions[k].call.CallOffline?
                            && actions[k].call.user == key)
  {
    hide Exec;
    RunReasons(actions);
    var c := Exec(Start, actions);
    assert SignalReason(actions, c.w, c.w.signals[j]);
    var key := c.w.signals[j].key;
    if WasCompleted(actions, key) {
      var k :| 0 <= k <= |actions| && CompletedIn(Exec(Start, actions[..k]).w, key);
    } else if AskedOffline(actions, key) {
      var k :| 0 <= k < |actions| && OfflineCall(actions[k], key);
    }
  }
}

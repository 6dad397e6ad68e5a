/** Every serial run is a run of the step machine: the machine admits each call through the
    guarded routes, and its steps, taken in a row, leave the same world. What the serial
    witnesses show can therefore really happen. */
module SerialInMachine {
  import opened Models
  import opened Dispatch
  import opened RatingMath
  import opened Worlds
  import opened Machine
  import opened MachineFrames
  import opened Uninterrupted
  import Serial
  import SerialRides

  // ---------- a task run alone is a run ----------

  /** Where the task ends, leaving the lock if it was inside. */
  function RunOut(c: Config, i: nat, input: Input): Config
    requires i < |c.tasks|
  {
    var (w', t') := Alone(c.w, c.tasks[i], input);
    Advance(c, i, w', t')
  }

  /** Neither waiting for the lock nor inside it. */
  predicate Outside(t: Task) { !t.AcceptWait? && !Critical(t) }

  lemma NeverEnters(w: World, t: Task, input: Input)
    requires !t.AcceptWait?
    ensures !StepTask(w, t, input).1.AcceptWait?
    ensures Critical(StepTask(w, t, input).1) ==> Critical(t)
  {
    hide Critical, StepRequest, StepAccept, StepMark, StepLifecycle, StepDriver, StepRate, StepAccount, StepRetry;
    if IsAccept(t) {
      NeverEntersAccept(w, t);
    } else if IsMark(t) {
      NeverEntersMark(w, t);
    } else if IsLifecycle(t) {
      NeverEntersLifecycle(w, t);
    } else {
      if IsRequest(t) {
        RequestFrame(w, t, input);
      } else if IsDriver(t) {
        DriverGoesOn(w, t, input);
      } else if IsRate(t) {
        RateGoesOn(w, t);
      } else if IsAccount(t) {
        AccountGoesOn(w, t, input);
      } else {
        RetryFrame(w, t, input);
      }
      CalmOutside(StepTask(w, t, input).1);
    }
  }

  lemma CalmOutside(t: Task)
    requires IsRequest(t) || Judging(t) || t.RateUserSave? || Accounting(t) || Placing(t)
             || t.Done? || t.RetryFind? || t.RetryPublish?
    ensures Outside(t)
  {
  }

  lemma NeverEntersAccept(w: World, t: Task)
    requires IsAccept(t)
    ensures Critical(t) && !StepAccept(w, t).1.AcceptWait?
  {
    hide SaveMatch, PublishAccepted;
  }

  lemma NeverEntersMark(w: World, t: Task)
    requires IsMark(t)
    ensures !StepMark(w, t).1.AcceptWait? && (Critical(StepMark(w, t).1) ==> Critical(t))
  {
    hide SaveDriverRow, SyncAvailable;
  }

  lemma NeverEntersLifecycle(w: World, t: Task)
    requires IsLifecycle(t)
    ensures Outside(StepLifecycle(w, t).1)
  {
    hide SaveRide, PublishCompleted, PublishCancelled, Started, Completed, Cancelled;
  }

  lemma {:induction false} AloneStays(w: World, t: Task, input: Input)
    requires !t.AcceptWait?
    ensures Critical(Alone(w, t, input).1) ==> Critical(t)
    decreases StepsLeft(t)
  {
    hide StepTask, Critical;
    var (w', t') := StepTask(w, t, input);
    if StepsLeft(t') < StepsLeft(t) {
      NeverEnters(w, t, input);
      AloneStays(w', t', input);
    }
  }

  /** The steps of one task in a row. */
  lemma {:induction false} AloneIsARun(c: Config, i: nat, input: Input) returns (more: seq<Action>)
    requires i < |c.tasks| && !c.tasks[i].AcceptWait?
    ensures Exec(c, more) == RunOut(c, i, input)
    decreases StepsLeft(c.tasks[i])
  {
    hide StepTask, Critical, Exec;
    var t := c.tasks[i];
    var (w', t') := StepTask(c.w, t, input);
    if StepsLeft(t') < StepsLeft(t) {
      var c1 := Advance(c, i, w', t');
      NeverEnters(c.w, t, input);
      var rest := AloneIsARun(c1, i, input);
      more := [Step(i, input)] + rest;
      ExecConcat(c, [Step(i, input)], rest);
      OneAction(c, Step(i, input));
      var end := Alone(w', t', input).1;
      assert c1.tasks[i := end] == c.tasks[i := end];
      AloneStays(w', t', input);
    } else {
      more := [];
      assert c.tasks[i := t] == c.tasks;
      NothingDone(c);
    }
  }

  lemma NothingDone(c: Config)
    ensures Exec(c, []) == c
  {
  }

  // ---------- a serial call is a run ----------

  /** The task the call of a serial command starts as. */
  function FirstTask(w: World, c: Serial.Command): Task
    requires Serial.Possible(w, c) && !c.DoWait?
  {
    if c.DoAccept? then AcceptWait(c.ride, c.user) else Handler(w, c)
  }

  /** The configuration after one more call, served serially. */
  function Served(c: Config, cmd: Serial.Command): Config
    requires Serial.Possible(c.w, cmd)
  {
    c.(w := Serial.Serve(c.w, cmd).0, tasks := c.tasks + [Done(Serial.Serve(c.w, cmd).1)],
       order := if cmd.DoAccept? then c.order + [|c.tasks|] else c.order)
  }

  /** An admitted call can run through without interruption, and then serves the serial
      call, whatever other tasks stand where and, but for an accept, whoever has the lock. */
  lemma SerialCallIsARun(c: Config, cmd: Serial.Command, call: Call, input: Input) returns (more: seq<Action>)
    requires Serial.Possible(c.w, cmd) && !cmd.DoWait? && Supplies(input, cmd)
    requires cmd.DoAccept? ==> c.lock.None?
    requires cmd.DoRegisterDriver? ==> c.w.users[cmd.user].id == cmd.user
    requires Admit(c.w, call) == Some(FirstTask(c.w, cmd))
    ensures Exec(c, more) == Served(c, cmd)
  {
    hide Exec, Admit, Handler, Serial.Serve, Serial.Possible, Alone, StepTask, Critical;
    var n := |c.tasks|;
    var t := Handler(c.w, cmd);
    UninterruptedIsSerial(c.w, cmd, input);
    NotWaiting(c.w, cmd);
    var c1 := c.(tasks := c.tasks + [FirstTask(c.w, cmd)]);
    OneAction(c, Spawn(call));
    if cmd.DoAccept? {
      var c2 := Acquire(c1, n);
      OneAction(c1, Step(n, input));
      var rest := AloneIsARun(c2, n, input);
      ExecConcat(c, [Spawn(call)], [Step(n, input)]);
      ExecConcat(c, [Spawn(call)] + [Step(n, input)], rest);
      more := [Spawn(call)] + [Step(n, input)] + rest;
      assert c2.tasks == c.tasks + [t];
      assert (c.tasks + [t])[n := Done(Serial.Serve(c.w, cmd).1)] == c.tasks + [Done(Serial.Serve(c.w, cmd).1)];
    } else {
      var rest := AloneIsARun(c1, n, input);
      ExecConcat(c, [Spawn(call)], rest);
      more := [Spawn(call)] + rest;
      assert (c.tasks + [t])[n := Done(Serial.Serve(c.w, cmd).1)] == c.tasks + [Done(Serial.Serve(c.w, cmd).1)];
    }
  }

  lemma NotWaiting(w: World, cmd: Serial.Command)
    requires Serial.Possible(w, cmd) && !cmd.DoWait?
    ensures Outside(Handler(w, cmd)) || cmd.DoAccept?
    ensures cmd.DoAccept? ==> Handler(w, cmd) == AcceptReadRide(cmd.ride, cmd.user) && Critical(Handler(w, cmd))
    ensures forall o: Outcome :: Outside(Done(o))
  {
  }

  // ---------- the guards admit every serial call that does something ----------

  /** Every user was given a RIDER token and every driver a DRIVER token. */
  predicate Badged(w: World) {
    && (forall u :: u in w.users ==> Token(w.users[u].username, RIDER) in w.tokens)
    && (forall d :: d in w.drivers ==> d in w.users && Token(w.users[d].username, DRIVER) in w.tokens)
  }

  /** No account or profile is new and no token or name is lost. */
  predicate SameNames(w: World, w': World) {
    && w.tokens <= w'.tokens && w'.users.Keys == w.users.Keys && w'.drivers.Keys == w.drivers.Keys
    && (forall u :: u in w.users && u in w'.users ==> w'.users[u].username == w.users[u].username)
  }

  lemma SameNamesBadged(w: World, w': World)
    requires Badged(w) && SameNames(w, w')
    ensures Badged(w')
  {
    assert forall d :: d in w'.drivers ==> d in w.drivers.Keys;
    assert forall u :: u in w'.users ==> u in w.users.Keys;
  }

  lemma SaveDriverNames(w: World, d: Driver)
    requires d.userId in w.drivers
    ensures SameNames(w, SaveDriver(w, d))
  {
  }

  lemma NamesOnward(w: World, w1: World, w2: World)
    requires SameNames(w, w1) && w2.users == w1.users && w2.drivers == w1.drivers && w2.tokens == w1.tokens
    ensures SameNames(w, w2)
  {
  }

  lemma NamesHere(w: World)
    ensures SameNames(w, w)
  {
  }

  lemma OnlineNames(w: World, user: Id, at: Point)
    requires SerialRides.Keyed(w.rides, w.drivers, w.users)
    ensures SameNames(w, Serial.GoOnline(w, user, at).0) && SameNames(w, Serial.GoOffline(w, user).0)
  {
    hide SaveDriver;
    if user in w.drivers {
      SaveDriverNames(w.(located := w.located[user := at]), w.drivers[user].(isAvailable := true));
      SaveDriverNames(w.(located := w.located - {user}), w.drivers[user].(isAvailable := false));
    }
  }

  lemma LocationNames(w: World, user: Id, at: Point, held: Option<Id>)
    requires user in w.drivers ==> FirstHeld(w, user, held)
    ensures SameNames(w, Serial.UpdateLocation(w, user, at, held).0)
  {
    hide SameNames, FirstHeld;
    NamesHere(w);
    NamesOnward(w, w, Serial.UpdateLocation(w, user, at, held).0);
  }

  lemma AcceptNames(w: World, ride: Id, driver: Id)
    requires SerialRides.Keyed(w.rides, w.drivers, w.users)
    ensures SameNames(w, Serial.AcceptRide(w, ride, driver).0)
  {
    hide SaveDriver, SameNames;
    var w' := Serial.AcceptRide(w, ride, driver).0;
    NamesHere(w);
    if Serial.AcceptRide(w, ride, driver).1.Granted? {
      var row := w.drivers[driver].(isAvailable := false);
      SaveDriverNames(w, row);
      NamesOnward(w, SaveDriver(w, row), w');
    } else {
      NamesOnward(w, w, w');
    }
  }

  lemma StartNames(w: World, ride: Id, driver: Id)
    ensures SameNames(w, Serial.StartRide(w, ride, driver).0)
  {
    hide SameNames;
    NamesHere(w);
    if Serial.StartRide(w, ride, driver).1.Granted? {
      NamesOnward(w, w, SaveRide(w, Started(w.rides[ride])));
    }
  }

  lemma CompleteNames(w: World, ride: Id, driver: Id)
    requires SerialRides.Keyed(w.rides, w.drivers, w.users)
    ensures SameNames(w, Serial.CompleteRide(w, ride, driver).0)
  {
    hide SaveDriver;
    if ride in w.rides && driver in w.drivers {
      SaveDriverNames(SaveRide(w, Completed(w.rides[ride], w.now)), w.drivers[driver].(isAvailable := true));
    }
  }

  lemma CancelNames(w: World, ride: Id, user: Id)
    requires SerialRides.Keyed(w.rides, w.drivers, w.users)
    ensures SameNames(w, Serial.CancelRide(w, ride, user).0)
  {
    hide SaveDriver, SameNames;
    var w' := Serial.CancelRide(w, ride, user).0;
    NamesHere(w);
    if !Serial.CancelRide(w, ride, user).1.Granted? || w.rides[ride].driver.None? {
      NamesOnward(w, w, w');
    } else {
      var row := w.drivers[w.rides[ride].driver.value].(isAvailable := true);
      SaveDriverNames(w, row);
      NamesOnward(w, SaveDriver(w, row), w');
    }
  }

  lemma RatedNames(w: World, ride: Id, from: Id, score: int)
    requires SerialRides.Keyed(w.rides, w.drivers, w.users)
    ensures SameNames(w, Serial.Rate(w, ride, from, score).0)
  {
    hide HasRated, AddRating, Serial.ScoreDriver, Serial.ScoreUser, AddScore;
    if Serial.Rate(w, ride, from, score).1 == Finished {
      SerialRides.RateEffect(w, Rating(ride, from, Serial.Ratee(w.rides[ride], from).value, score));
    }
  }

  lemma RequestNames(w: World, rider: Id, trip: Trip, reply: seq<Hit>, uuid: Id)
    requires ValidTrip(trip)
    ensures SameNames(w, Serial.RequestRide(w, rider, trip, reply, uuid).0)
  {
    hide Serial.RequestRide, SameNames;
    var r := SerialRides.RequestEffect(w, rider, trip, reply, uuid);
    NamesHere(w);
    NamesOnward(w, w, Serial.RequestRide(w, rider, trip, reply, uuid).0);
  }

  lemma CallNames(w: World, c: Serial.Command)
    requires SerialRides.Keyed(w.rides, w.drivers, w.users) && Serial.Possible(w, c)
    requires !c.DoSignUp? && !c.DoRegisterDriver?
    ensures SameNames(w, Serial.Serve(w, c).0)
  {
    hide SameNames, Serial.SignUp, Serial.RegisterDriver, Serial.GoOnline, Serial.GoOffline, Serial.UpdateLocation,
      Serial.RequestRide, Serial.AcceptRide, Serial.StartRide, Serial.CompleteRide, Serial.CancelRide, Serial.Rate;
    match c
    case DoOnline(user, at) => OnlineNames(w, user, at);
    case DoOffline(user) => OnlineNames(w, user, Point(0.0, 0.0));
    case DoLocation(user, at, held) => LocationNames(w, user, at, held);
    case DoRequest(user, trip, reply, uuid) => RequestNames(w, user, trip, reply, uuid);
    case DoAccept(user, ride) => AcceptNames(w, ride, user);
    case DoStart(user, ride) => StartNames(w, ride, user);
    case DoComplete(user, ride) => CompleteNames(w, ride, user);
    case DoCancel(user, ride) => CancelNames(w, ride, user);
    case DoRate(user, ride, score) => RatedNames(w, ride, user, score);
    case DoWait(seconds) => ClockNames(w, seconds);
  }

  lemma ClockNames(w: World, seconds: nat)
    ensures SameNames(w, w.(now := w.now + seconds))
  {
  }

  lemma ServeBadged(w: World, c: Serial.Command)
    requires SerialRides.Keyed(w.rides, w.drivers, w.users) && Serial.Possible(w, c) && Badged(w)
    ensures Badged(Serial.Serve(w, c).0)
  {
    hide UsernameTaken;
    if c.DoSignUp? || c.DoRegisterDriver? {
    } else {
      hide Serial.Serve;
      CallNames(w, c);
      SameNamesBadged(w, Serial.Serve(w, c).0);
    }
  }

  /** The routes behind require_role(DRIVER). */
  predicate NeedsDriverMode(c: Serial.Command) {
    c.DoOnline? || c.DoOffline? || c.DoLocation? || c.DoAccept? || c.DoStart? || c.DoComplete?
  }

  /** A call with a token the user was given. */
  function CallOf(w: World, c: Serial.Command): Call
    requires Serial.Possible(w, c) && !c.DoWait?
  {
    if c.DoSignUp? then CallSignUp(c.username)
    else
      var rider, driver := Token(w.users[c.user].username, RIDER), Token(w.users[c.user].username, DRIVER);
      match c
      case DoRegisterDriver(user, vehicle, plate) => CallRegisterDriver(rider, user, vehicle, plate)
      case DoOnline(user, at) => CallOnline(driver, user, at)
      case DoOffline(user) => CallOffline(driver, user)
      case DoLocation(user, at, _) => CallLocation(driver, user, at)
      case DoRequest(user, trip, _, _) => CallRequest(rider, user, trip)
      case DoAccept(user, ride) => CallAccept(driver, user, ride)
      case DoStart(user, ride) => CallStart(driver, user, ride)
      case DoComplete(user, ride) => CallComplete(driver, user, ride)
      case DoCancel(user, ride) => CallCancel(rider, user, ride)
      case DoRate(user, ride, score) => CallRate(rider, user, ride, score)
  }

  lemma Admitted(w: World, c: Serial.Command)
    requires Serial.Possible(w, c) && !c.DoWait? && Badged(w)
    requires NeedsDriverMode(c) ==> c.user in w.drivers
    ensures Admit(w, CallOf(w, c)) == Some(FirstTask(w, c))
  {
  }

  /** A user without a profile gets nothing done behind a driver route. */
  lemma RefusedAnyway(w: World, c: Serial.Command)
    requires SerialRides.Keyed(w.rides, w.drivers, w.users) && Serial.Possible(w, c)
    requires NeedsDriverMode(c) && c.user !in w.drivers
    ensures Serial.Serve(w, c).0 == w
  {
  }

  lemma NextAfter(run: seq<Serial.Command>)
    requires run != []
    ensures var w, c := Serial.After(run[..|run| - 1]), run[|run| - 1];
            Serial.After(run) == if Serial.Possible(w, c) then Serial.Serve(w, c).0 else w
  {
  }

  lemma {:induction false} RunsBadged(run: seq<Serial.Command>)
    ensures Badged(Serial.After(run))
  {
    if run != [] {
      hide Badged, Serial.Serve, Serial.Possible;
      var init := run[..|run| - 1];
      NextAfter(run);
      RunsBadged(init);
      SerialRides.RunsAreSound(init);
      if Serial.Possible(Serial.After(init), run[|run| - 1]) {
        ServeBadged(Serial.After(init), run[|run| - 1]);
      }
    }
  }

  function InputOf(c: Serial.Command): Input {
    match c
    case DoSignUp(_, uuid) => Input([], uuid, [])
    case DoRequest(_, _, reply, uuid) => Input(reply, uuid, [])
    case DoLocation(_, _, held) => Input([], 0, if held.Some? then [held.value] else [])
    case _ => Input([], 0, [])
  }

  /** Nothing is under way. */
  predicate Quiescent(c: Config) {
    c.lock.None? && c.consumer.Idle? && forall i :: 0 <= i < |c.tasks| ==> c.tasks[i].Done?
  }

  lemma OneMoreCall(c: Config, cmd: Serial.Command) returns (more: seq<Action>)
    requires Quiescent(c) && Serial.Possible(c.w, cmd) && Badged(c.w)
    requires SerialRides.Keyed(c.w.rides, c.w.drivers, c.w.users)
    ensures Quiescent(Exec(c, more)) && Exec(c, more).w == Serial.Serve(c.w, cmd).0
  {
    hide Exec, Serial.Serve, Serial.Possible, Badged, Admit, CallOf, FirstTask;
    if cmd.DoWait? {
      more := [Tick(cmd.seconds)];
      OneAction(c, Tick(cmd.seconds));
      Waited(c.w, cmd);
    } else if NeedsDriverMode(cmd) && cmd.user !in c.w.drivers {
      more := [];
      NothingDone(c);
      RefusedAnyway(c.w, cmd);
    } else {
      Admitted(c.w, cmd);
      UserKnown(c.w, cmd);
      more := SerialCallIsARun(c, cmd, CallOf(c.w, cmd), InputOf(cmd));
    }
  }

  lemma UserKnown(w: World, c: Serial.Command)
    requires SerialRides.Keyed(w.rides, w.drivers, w.users) && Serial.Possible(w, c)
    ensures c.DoRegisterDriver? ==> c.user in w.users && w.users[c.user].id == c.user
  {
  }

  /** Every world that a serial run reaches, a run of the step machine reaches too, through
      the guarded routes only. */
  lemma {:induction false} SerialRunsAreMachineRuns(run: seq<Serial.Command>) returns (actions: seq<Action>)
    ensures Quiescent(Exec(Start, actions)) && Exec(Start, actions).w == Serial.After(run)
  {
    if run == [] {
      actions := [];
    } else {
      hide Exec, Serial.Serve, Serial.Possible, Badged, Quiescent, Serial.After, SerialRides.Keyed;
      var init, cmd := run[..|run| - 1], run[|run| - 1];
      actions := SerialRunsAreMachineRuns(init);
      NextAfter(run);
      RunsBadged(init);
      SerialRides.RunsAreSound(init);
      if Serial.Possible(Serial.After(init), cmd) {
        var more := OneMoreCall(Exec(Start, actions), cmd);
        ExecConcat(Start, actions, more);
        actions := actions + more;
      }
    }
  }

  lemma Waited(w: World, c: Serial.Command)
    requires c.DoWait?
    ensures Serial.Serve(w, c).0 == w.(now := w.now + c.seconds)
  {
  }
}

/** The order of each handler's writes in every interleaving (services/ride.py:64-130,
    services/driver.py:36-46): whatever comes between its steps, a handler that is about to do
    one of them has done those before it. */
module MachineOrder {
  import opened Models
  import opened Surge
  import opened Fares
  import opened Pricing
  import opened Dispatch
  import opened Worlds
  import opened Machine
  import opened MachineFrames
  import Serial

  // ---------- effects ----------

  datatype Effect =
    | RowSays(driver: Id, flag: bool)
    | SetSays(driver: Id, flag: bool)
    | Placed(driver: Id)
    | Unplaced(driver: Id)
    | Profiled(user: Id)
    | Saved(row: Ride)

  /** The effect is there in the stores. */
  predicate Shows(w: World, e: Effect) {
    match e
    case RowSays(driver, flag) => driver in w.drivers && w.drivers[driver].isAvailable == flag
    case SetSays(driver, flag) => (driver in w.available) == flag
    case Placed(driver) => driver in w.located
    case Unplaced(driver) => driver !in w.located
    case Profiled(user) => user in w.drivers
    case Saved(row) => row.id in w.rides && w.rides[row.id] == row
  }

  /** After some action of the run it was. */
  predicate Shown(actions: seq<Action>, e: Effect) {
    exists k :: 0 < k <= |actions| && Shows(Exec(Start, actions[..k]).w, e)
  }

  lemma ShownStays(actions: seq<Action>, a: Action, e: Effect)
    requires Shown(actions, e)
    ensures Shown(actions + [a], e)
  {
    hide Shows, Exec;
    var k :| 0 < k <= |actions| && Shows(Exec(Start, actions[..k]).w, e);
    assert (actions + [a])[..k] == actions[..k];
  }

  lemma ShownNow(actions: seq<Action>, a: Action, e: Effect)
    requires Shows(Next(Exec(Start, actions), a).w, e)
    ensures Shown(actions + [a], e)
  {
    hide Shows, Next;
    assert (actions + [a])[..|actions| + 1] == actions + [a] && (actions + [a])[..|actions|] == actions;
    assert Shows(Exec(Start, (actions + [a])[..|actions| + 1]).w, e);
  }

  // ---------- what a handler has done before it stands where it stands ----------

  /** Both records of the driver, if there is one. */
  function Flagged(driver: Option<Id>, flag: bool): set<Effect> {
    if driver.Some? then {RowSays(driver.value, flag), SetSays(driver.value, flag)} else {}
  }

  /** Before the driver row is saved. */
  function Before(driver: Id, k: Resume): set<Effect> {
    match k
    case ToCompletePublish(saved) => {Saved(saved)}
    case ToClose(_) => {Unplaced(driver)}
    case ToFinish => {Placed(driver)}
    case _ => {}
  }

  function Effects(t: Task): set<Effect> {
    match t
    case RequestPublish(saved) => {Saved(saved)}
    case AcceptSave(_, driver) => Flagged(Some(driver), false)
    case AcceptPublish(saved) => {Saved(saved)} + Flagged(saved.driver, false)
    case MarkRead(driver, _, k) => Before(driver, k)
    case DriverSave(profile, k) => Before(profile.userId, k)
    case DriverSync(profile, k) =>
      Before(profile.userId, k) + {RowSays(profile.userId, profile.isAvailable), Profiled(profile.userId)}
    case CompletePublish(saved) => {Saved(saved)} + Flagged(saved.driver, true)
    case CancelSave(row) => Flagged(row.driver, true)
    case CancelPublish(saved) => {Saved(saved)} + Flagged(saved.driver, true)
    case UpgradeUser(account) => {Profiled(account.id)}
    case _ => {}
  }

  /** A marked driver and flag are those that the rest of the handler is about. */
  predicate FitsResume(driver: Id, flag: bool, k: Resume) {
    match k
    case ToAcceptSave(_, d) => d == driver && !flag
    case ToCompletePublish(saved) => saved.driver == Some(driver) && flag
    case ToCancelSave(row) => row.driver == Some(driver) && flag
    case ToClose(d) => d == driver && !flag
    case ToFinish => flag
    case ToUpgrade(user) => user.id == driver
    case ToRateUser(_, _) => true
  }

  predicate Fits(t: Task) {
    match t
    case MarkRead(driver, flag, k) => FitsResume(driver, flag, k) && !k.ToUpgrade? && !k.ToRateUser?
    case DriverSave(profile, k) => FitsResume(profile.userId, profile.isAvailable, k)
    case DriverSync(profile, k) => FitsResume(profile.userId, profile.isAvailable, k)
    case CompleteSave(row, driver) => row.driver == Some(driver)
    case _ => true
  }

  /** Profiles are stored under their own ids. */
  predicate Keyed(w: World) { forall d :: d in w.drivers ==> w.drivers[d].userId == d }

  /** One step: what it goes on with fits, and its effects were there before or are there now. */
  predicate Orderly(w: World, t: Task, w': World, t': Task) {
    Keyed(w') && Fits(t') && forall e :: e in Effects(t') ==> e in Effects(t) || Shows(w', e)
  }

  lemma SameDriversKeyed(w: World, w': World)
    requires Keyed(w) && w'.drivers == w.drivers
    ensures Keyed(w')
  {
  }

  lemma RequestOrder(w: World, t: Task, input: Input)
    requires Keyed(w) && IsRequest(t)
    ensures Orderly(w, t, StepRequest(w, t, input).0, StepRequest(w, t, input).1)
  {
    hide Keyed, HasActiveRide, PendingNear, KeepAvailable, Answers, Live, Lookup, ComputeMultiplier, FareCents,
      StoreSurge, SaveNew, PublishRequested;
    RequestFrame(w, t, input);
    SameDriversKeyed(w, StepRequest(w, t, input).0);
  }

  lemma AcceptOrder(w: World, t: Task)
    requires Keyed(w) && IsAccept(t)
    ensures Orderly(w, t, StepAccept(w, t).0, StepAccept(w, t).1)
  {
    hide Keyed, SaveMatch, PublishAccepted;
    AcceptLeaves(w, t);
    SameDriversKeyed(w, StepAccept(w, t).0);
  }

  lemma MarkOrder(w: World, t: Task)
    requires Keyed(w) && IsMark(t) && Fits(t)
    ensures Orderly(w, t, StepMark(w, t).0, StepMark(w, t).1)
  {
    hide SaveDriverRow, SyncAvailable, Resumed;
    if t.DriverSave? {
      SaveDriverRowFrame(w, t.profile);
    } else if t.DriverSync? {
      SyncFrame(w, t.profile);
      ResumedFrame(SyncAvailable(w, t.profile), t.resume);
    }
  }

  lemma LifecycleOrder(w: World, t: Task)
    requires Keyed(w) && IsLifecycle(t) && Fits(t)
    ensures Orderly(w, t, StepLifecycle(w, t).0, StepLifecycle(w, t).1)
  {
    hide Keyed, SaveRide, PublishCompleted, PublishCancelled;
    LifecycleLeaves(w, t);
    SameDriversKeyed(w, StepLifecycle(w, t).0);
  }

  lemma DriverOrder(w: World, t: Task, input: Input)
    requires Keyed(w) && IsDriver(t)
    ensures Orderly(w, t, StepDriver(w, t, input).0, StepDriver(w, t, input).1)
  {
    hide Keyed, TellMoved, FirstHeld;
    DriverFrame(w, t, input);
    SameDriversKeyed(w, StepDriver(w, t, input).0);
  }

  lemma RateOrder(w: World, t: Task)
    requires Keyed(w) && IsRate(t)
    ensures Orderly(w, t, StepRate(w, t).0, StepRate(w, t).1)
  {
    hide Keyed, HasRated, Serial.Ratee, Serial.RefusedRatee, Serial.RatedDriver, Serial.RatedUser, AddRating, SaveUser;
    RateFrame(w, t);
    SameDriversKeyed(w, StepRate(w, t).0);
  }

  lemma AccountOrder(w: World, t: Task, input: Input)
    requires Keyed(w) && IsAccount(t)
    ensures Orderly(w, t, StepAccount(w, t, input).0, StepAccount(w, t, input).1)
  {
    hide Keyed, UsernameTaken, SaveUser, IssueToken;
    AccountFrame(w, t, input);
    SameDriversKeyed(w, StepAccount(w, t, input).0);
  }

  lemma RetryOrder(w: World, t: Task, input: Input)
    requires Keyed(w) && !IsRequest(t) && !IsAccept(t) && !IsMark(t) && !IsLifecycle(t) && !IsDriver(t)
    requires !IsRate(t) && !IsAccount(t) && !t.AcceptWait?
    ensures Orderly(w, t, StepRetry(w, t, input).0, StepRetry(w, t, input).1)
  {
    hide Keyed, Stale, PublishRequested;
    RetryFrame(w, t, input);
    SameDriversKeyed(w, StepRetry(w, t, input).0);
  }

  lemma StepOrder(w: World, t: Task, input: Input)
    requires Keyed(w) && Fits(t) && !t.AcceptWait?
    ensures Orderly(w, t, StepTask(w, t, input).0, StepTask(w, t, input).1)
  {
    hide Orderly, Fits, Keyed, StepRequest, StepAccept, StepMark, StepLifecycle, StepDriver, StepRate, StepAccount,
      StepRetry;
    if IsRequest(t) {
      RequestOrder(w, t, input);
    } else if IsAccept(t) {
      AcceptOrder(w, t);
    } else if IsMark(t) {
      MarkOrder(w, t);
    } else if IsLifecycle(t) {
      LifecycleOrder(w, t);
    } else if IsDriver(t) {
      DriverOrder(w, t, input);
    } else if IsRate(t) {
      RateOrder(w, t);
    } else if IsAccount(t) {
      AccountOrder(w, t, input);
    } else {
      RetryOrder(w, t, input);
    }
  }

  // ---------- every run ----------

  predicate TaskOrdered(actions: seq<Action>, t: Task) {
    Fits(t) && forall e :: e in Effects(t) ==> Shown(actions, e)
  }

  predicate Ordered(actions: seq<Action>, c: Config) {
    Keyed(c.w) && forall i :: 0 <= i < |c.tasks| ==> TaskOrdered(actions, c.tasks[i])
  }

  lemma TaskStays(actions: seq<Action>, a: Action, t: Task)
    requires TaskOrdered(actions, t)
    ensures TaskOrdered(actions + [a], t)
  {
    hide Shown, Effects;
    forall e | e in Effects(t)
      ensures Shown(actions + [a], e)
    {
      ShownStays(actions, a, e);
    }
  }

  lemma FreshTasks(actions: seq<Action>, w: World, call: Call)
    ensures Admit(w, call).Some? ==> TaskOrdered(actions, Admit(w, call).value)
    ensures TaskOrdered(actions, Done(Failed)) && forall r, d :: TaskOrdered(actions, AcceptReadRide(r, d))
  {
    hide Shown, Authenticated;
  }

  lemma StepperOrdered(actions: seq<Action>, c: Config, i: nat, input: Input)
    requires c == Exec(Start, actions) && Ordered(actions, c) && i < |c.tasks| && !c.tasks[i].AcceptWait?
    ensures TaskOrdered(actions + [Step(i, input)], Next(c, Step(i, input)).tasks[i])
    ensures Keyed(Next(c, Step(i, input)).w)
  {
    hide Shown, Shows, Effects, Fits, Keyed, StepTask, Critical, Exec;
    var a, t := Step(i, input), c.tasks[i];
    assert TaskOrdered(actions, t);
    StepOrder(c.w, t, input);
    forall e | e in Effects(Next(c, a).tasks[i])
      ensures Shown(actions + [a], e)
    {
      if e in Effects(t) {
        ShownStays(actions, a, e);
      } else {
        ShownNow(actions, a, e);
      }
    }
  }

  lemma ConsumerKeyed(w: World, consumer: Consumer, input: Input)
    requires Keyed(w)
    ensures Keyed(StepConsumer(w, consumer, input).0)
  {
    hide Keyed;
    ConsumerFrame(w, consumer, input);
    SameDriversKeyed(w, StepConsumer(w, consumer, input).0);
  }

  lemma NextOrdered(actions: seq<Action>, c: Config, a: Action)
    requires c == Exec(Start, actions) && Ordered(actions, c)
    ensures Ordered(actions + [a], Next(c, a))
  {
    hide TaskOrdered, Keyed, StepTask, StepConsumer, Critical, Admit, Exec;
    FreshTasks(actions + [a], c.w, CallRetry);
    if a.Handle? {
      ConsumerKeyed(c.w, c.consumer, a.handled);
    } else if a.Tick? {
      SameDriversKeyed(c.w, c.w.(now := c.w.now + a.seconds));
    }
    forall i | 0 <= i < |Next(c, a).tasks|
      ensures TaskOrdered(actions + [a], Next(c, a).tasks[i])
    {
      if a.Step? && a.task == i && !c.tasks[i].AcceptWait? {
        StepperOrdered(actions, c, i, a.input);
      } else if a.Spawn? && i == |c.tasks| {
        FreshTasks(actions + [a], c.w, a.call);
      } else if i < |c.tasks| {
        assert TaskOrdered(actions, c.tasks[i]);
        TaskStays(actions, a, c.tasks[i]);
      }
    }
    if a.Step? && a.task < |c.tasks| && !c.tasks[a.task].AcceptWait? {
      StepperOrdered(actions, c, a.task, a.input);
    }
  }

  lemma {:induction false} RunOrdered(actions: seq<Action>)
    ensures Ordered(actions, Exec(Start, actions))
  {
    if actions != [] {
      hide Next, Ordered;
      var init, a := actions[..|actions| - 1], actions[|actions| - 1];
      assert init + [a] == actions;
      RunOrdered(init);
      NextOrdered(init, Exec(Start, init), a);
    }
  }

  // ---------- what this says of every run ----------

  /** accept_ride about to save the match, or past it: the driver has been unavailable in the
      row and in the set at moments of the run. */
  lemma MarkedBeforeMatched(actions: seq<Action>, i: nat) returns (k1: nat, k2: nat)
    requires i < |Exec(Start, actions).tasks| && Exec(Start, actions).tasks[i].AcceptSave?
    ensures 0 < k1 <= |actions| && 0 < k2 <= |actions|
    ensures var d := Exec(Start, actions).tasks[i].driver;
            var w := Exec(Start, actions[..k1]).w; d in w.drivers && !w.drivers[d].isAvailable
    ensures Exec(Start, actions).tasks[i].driver !in Exec(Start, actions[..k2]).w.available
  {
    hide Exec;
    RunOrdered(actions);
    var t := Exec(Start, actions).tasks[i];
    assert TaskOrdered(actions, t);
    assert RowSays(t.driver, false) in Effects(t) && SetSays(t.driver, false) in Effects(t);
    k1 :| 0 < k1 <= |actions| && Shows(Exec(Start, actions[..k1]).w, RowSays(t.driver, false));
    k2 :| 0 < k2 <= |actions| && Shows(Exec(Start, actions[..k2]).w, SetSays(t.driver, false));
  }

  /** cancel_ride about to save the cancellation: the ride's driver, if any, has been available
      in the row and in the set. */
  lemma FreedBeforeCancelled(actions: seq<Action>, i: nat) returns (k1: nat, k2: nat)
    requires i < |Exec(Start, actions).tasks| && Exec(Start, actions).tasks[i].CancelSave?
    requires Exec(Start, actions).tasks[i].row.driver.Some?
    ensures 0 < k1 <= |actions| && 0 < k2 <= |actions|
    ensures var d := Exec(Start, actions).tasks[i].row.driver.value;
            var w := Exec(Start, actions[..k1]).w; d in w.drivers && w.drivers[d].isAvailable
    ensures Exec(Start, actions).tasks[i].row.driver.value in Exec(Start, actions[..k2]).w.available
  {
    hide Exec;
    RunOrdered(actions);
    var t := Exec(Start, actions).tasks[i];
    var d := t.row.driver.value;
    assert TaskOrdered(actions, t);
    assert RowSays(d, true) in Effects(t) && SetSays(d, true) in Effects(t);
    k1 :| 0 < k1 <= |actions| && Shows(Exec(Start, actions[..k1]).w, RowSays(d, true));
    k2 :| 0 < k2 <= |actions| && Shows(Exec(Start, actions[..k2]).w, SetSays(d, true));
  }

  /** complete_ride about to free the driver: the completed row has been stored. */
  lemma CompletedBeforeFreed(actions: seq<Action>, i: nat, saved: Ride) returns (k: nat)
    requires i < |Exec(Start, actions).tasks|
    requires var t := Exec(Start, actions).tasks[i];
             (t.MarkRead? || t.DriverSave? || t.DriverSync?) && t.resume == ToCompletePublish(saved)
    ensures 0 < k <= |actions|
    ensures var rides := Exec(Start, actions[..k]).w.rides; saved.id in rides && rides[saved.id] == saved
  {
    hide Exec;
    RunOrdered(actions);
    var t := Exec(Start, actions).tasks[i];
    assert TaskOrdered(actions, t);
    assert Saved(saved) in Effects(t);
    k :| 0 < k <= |actions| && Shows(Exec(Start, actions[..k]).w, Saved(saved));
  }

  /** A publishing handler: the very row it announces has been stored, and the driver marked. */
  lemma SavedBeforeAnnounced(actions: seq<Action>, i: nat, saved: Ride) returns (k: nat)
    requires i < |Exec(Start, actions).tasks|
    requires var t := Exec(Start, actions).tasks[i];
             t == RequestPublish(saved) || t == AcceptPublish(saved) || t == CompletePublish(saved)
             || t == CancelPublish(saved)
    ensures 0 < k <= |actions|
    ensures var rides := Exec(Start, actions[..k]).w.rides; saved.id in rides && rides[saved.id] == saved
  {
    hide Exec;
    RunOrdered(actions);
    var t := Exec(Start, actions).tasks[i];
    assert TaskOrdered(actions, t);
    assert Saved(saved) in Effects(t);
    k :| 0 < k <= |actions| && Shows(Exec(Start, actions[..k]).w, Saved(saved));
  }

  /** go_online and go_offline about to save the flag: the driver has been put into the
      geo-index, or taken out of it. */
  lemma LocatedBeforeMarked(actions: seq<Action>, i: nat) returns (k: nat)
    requires i < |Exec(Start, actions).tasks| && Exec(Start, actions).tasks[i].DriverSave?
    requires var k := Exec(Start, actions).tasks[i].resume; k.ToFinish? || k.ToClose?
    ensures 0 < k <= |actions|
    ensures var t := Exec(Start, actions).tasks[i];
            t.profile.isAvailable == t.resume.ToFinish?
            && (t.profile.userId in Exec(Start, actions[..k]).w.located <==> t.resume.ToFinish?)
  {
    hide Exec;
    RunOrdered(actions);
    var t := Exec(Start, actions).tasks[i];
    assert TaskOrdered(actions, t);
    var e := if t.resume.ToFinish? then Placed(t.profile.userId) else Unplaced(t.profile.userId);
    assert e in Effects(t);
    k :| 0 < k <= |actions| && Shows(Exec(Start, actions[..k]).w, e);
  }
}

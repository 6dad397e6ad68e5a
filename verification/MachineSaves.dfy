/** Which ride row each step saves, and what follows for rows taken together: exactly when a
    completed ride stays as it is, and exactly which runs keep a rider to one active ride and a
    driver to one ride. */
module MachineSaves {
  import opened Models
  import opened Surge
  import opened Fares
  import opened Pricing
  import opened Dispatch
  import opened Worlds
  import opened RideRows
  import opened SerialRides
  import opened Machine
  import opened MachineFrames
  import opened Uninterrupted
  import opened SerialInMachine
  import Rides = MachineRides
  import Auth = MachineAuth

  // ---------- the row a step saves ----------

  /** The ride row the next step of the task saves, if it saves one. */
  function SavedRow(w: World, t: Task, input: Input): Option<Ride> {
    match t
    case RequestSave(rider, trip, at, m, _) =>
      if input.uuid in w.rides || !ValidTrip(trip) then None
      else Some(NewRide(input.uuid, rider, trip, FareCents(trip.distance, m), at))
    case AcceptSave(snapshot, driver) => Some(Matched(snapshot, driver))
    case StartSave(row) => Some(row)
    case CompleteSave(row, _) => Some(row)
    case CancelSave(row) => Some(row)
    case _ => None
  }

  function Written(rides: map<Id, Ride>, r: Option<Ride>): map<Id, Ride> {
    if r.Some? then rides[r.value.id := r.value] else rides
  }

  lemma StepWrites(w: World, t: Task, input: Input)
    requires !t.AcceptWait?
    ensures StepTask(w, t, input).0.rides == Written(w.rides, SavedRow(w, t, input))
  {
    hide SavedRow, StepRequest, StepAccept, StepMark, StepLifecycle, StepDriver, StepRate, StepAccount, StepRetry,
      SameAccounts, SameDriverTables;
    SavingTasks(w, t, input);
    if IsRequest(t) {
      RequestFrame(w, t, input);
      RequestSaves(w, t, input);
    } else if IsAccept(t) {
      AcceptLeaves(w, t);
    } else if IsMark(t) {
      MarkFrame(w, t);
    } else if IsLifecycle(t) {
      LifecycleLeaves(w, t);
    } else if IsDriver(t) {
      DriverFrame(w, t, input);
    } else if IsRate(t) {
      RateFrame(w, t);
    } else if IsAccount(t) {
      AccountFrame(w, t, input);
    } else {
      RetryFrame(w, t, input);
    }
  }

  lemma SavingTasks(w: World, t: Task, input: Input)
    ensures t.AcceptSave? ==> SavedRow(w, t, input) == Some(Matched(t.snapshot, t.driver))
    ensures t.StartSave? || t.CompleteSave? || t.CancelSave? ==> SavedRow(w, t, input) == Some(t.row)
    ensures SavedRow(w, t, input).Some? ==>
              t.RequestSave? || t.AcceptSave? || t.StartSave? || t.CompleteSave? || t.CancelSave?
  {
    hide FareCents, Matched;
  }

  lemma RequestSaves(w: World, t: Task, input: Input)
    requires IsRequest(t)
    ensures var saves := t.RequestSave? && StepRequest(w, t, input).1 != t;
            SavedRow(w, t, input) == if saves then Some(StepRequest(w, t, input).1.saved) else None
  {
    if t.RequestSave? {
      hide FareCents, SaveNew;
    } else {
      hide StepRequest;
    }
  }

  /** The row an action saves. */
  function SavedBy(c: Config, a: Action): Option<Ride> {
    if a.Step? && a.task < |c.tasks| then SavedRow(c.w, c.tasks[a.task], a.input) else None
  }

  lemma NextWrites(c: Config, a: Action)
    ensures Next(c, a).w.rides == Written(c.w.rides, SavedBy(c, a))
  {
    hide StepTask, StepConsumer, SavedRow, Admit, Critical, SameAccounts;
    match a
    case Step(i, input) =>
      if i < |c.tasks| {
        if c.tasks[i].AcceptWait? {
          WaitersSaveNothing(c.w, c.tasks[i], input);
        } else {
          StepWrites(c.w, c.tasks[i], input);
        }
      }
    case Handle(input) => ConsumerFrame(c.w, c.consumer, input);
    case _ =>
  }

  lemma WaitersSaveNothing(w: World, t: Task, input: Input)
    requires t.AcceptWait?
    ensures SavedRow(w, t, input).None?
  {
  }

  // ---------- completed rides ----------

  /** No task holds another row of the ride in order to save it. */
  ghost predicate NoOtherRowHeld(c: Config, id: Id, row: Ride) {
    forall i, r :: 0 <= i < |c.tasks| && Rides.AboutToSave(c.tasks[i], r) && r.id == id ==> r == row
  }

  lemma SavedWasHeld(w: World, t: Task, input: Input, r: Ride)
    requires SavedRow(w, t, input) == Some(r)
    ensures Rides.AboutToSave(t, r) || r.id !in w.rides
  {
    hide FareCents;
  }

  /** What a task newly holds it has read from a row that is not completed. */
  lemma HeldFromOpenRow(w: World, t: Task, input: Input, r: Ride)
    requires Rides.WorldOK(w) && Rides.CriticalOK(w, t) && !t.AcceptWait?
    requires Rides.AboutToSave(StepTask(w, t, input).1, r) && !Rides.AboutToSave(t, r)
    ensures r.id in w.rides && w.rides[r.id].status != COMPLETED
  {
    hide Rides.WorldOK, Rides.AboutToSave, StepRequest, StepAccept, StepMark, StepLifecycle, StepDriver, StepRate,
      StepAccount, StepRetry, Rides.CriticalOK;
    if IsRequest(t) {
      RequestFrame(w, t, input);
      NothingHeld(StepTask(w, t, input).1, r);
    } else if IsAccept(t) {
      HeldFromAccept(w, t, r);
    } else if IsMark(t) {
      HeldThroughMark(w, t, r);
    } else if IsLifecycle(t) {
      HeldFromRead(w, t, r);
    } else {
      if IsDriver(t) {
        DriverGoesOn(w, t, input);
      } else if IsRate(t) {
        RateGoesOn(w, t);
      } else if IsAccount(t) {
        AccountGoesOn(w, t, input);
      } else {
        RetryFrame(w, t, input);
      }
      NothingHeld(StepTask(w, t, input).1, r);
    }
  }

  lemma NothingHeld(t: Task, r: Ride)
    requires IsRequest(t) || Judging(t) || t.RateUserSave? || Accounting(t) || Placing(t)
             || t.Done? || t.RetryFind? || t.RetryPublish?
    ensures !Rides.AboutToSave(t, r)
  {
  }

  lemma HeldFromAccept(w: World, t: Task, r: Ride)
    requires Rides.WorldOK(w) && Rides.CriticalOK(w, t) && IsAccept(t)
    requires Rides.AboutToSave(StepAccept(w, t).1, r)
    ensures r.id in w.rides && w.rides[r.id].status != COMPLETED
  {
    hide SaveMatch, PublishAccepted, Rides.WorldOK;
    assert t.AcceptReadDriver? && r.id == t.snapshot.id;
    UnacceptedIsOpen(w, t.snapshot);
  }

  lemma UnacceptedIsOpen(w: World, s: Ride)
    requires Rides.WorldOK(w) && Rides.UnacceptedSnapshot(w, s)
    ensures s.id in w.rides && w.rides[s.id].status != COMPLETED
  {
    assert Rides.RowOK(w, s.id);
  }

  lemma HeldThroughMark(w: World, t: Task, r: Ride)
    requires IsMark(t) && Rides.AboutToSave(StepMark(w, t).1, r)
    ensures Rides.AboutToSave(t, r)
  {
    hide SaveDriverRow, SyncAvailable, Resumed;
  }

  lemma HeldFromRead(w: World, t: Task, r: Ride)
    requires Rides.WorldOK(w) && IsLifecycle(t)
    requires Rides.AboutToSave(StepLifecycle(w, t).1, r) && !Rides.AboutToSave(t, r)
    ensures r.id in w.rides && w.rides[r.id].status != COMPLETED
  {
    hide SaveRide, PublishCompleted, PublishCancelled, Rides.WorldOK;
    assert t.StartRead? || t.CompleteRead? || t.CancelRead?;
    assert t.ride in w.rides;
    Rides.ReadId(w, t.ride);
  }

  /** The ride is completed and every row held of it is the stored one. */
  ghost predicate Final(c: Config, id: Id, row: Ride) {
    id in c.w.rides && c.w.rides[id] == row && row.status == COMPLETED && row.id == id && NoOtherRowHeld(c, id, row)
  }

  lemma FinalStays(c: Config, a: Action, id: Id, row: Ride)
    requires Rides.ConfigOK(c) && Final(c, id, row)
    ensures Final(Next(c, a), id, row)
  {
    hide SavedRow, Rides.AboutToSave, Rides.ConfigOK, Next;
    var c' := Next(c, a);
    NextWrites(c, a);
    if SavedBy(c, a).Some? && SavedBy(c, a).value.id == id {
      SavedWasHeld(c.w, c.tasks[a.task], a.input, SavedBy(c, a).value);
    }
    forall i, r | 0 <= i < |c'.tasks| && Rides.AboutToSave(c'.tasks[i], r) && r.id == id
      ensures r == row
    {
      HeldBefore(c, a, i, r);
    }
  }

  /** A row of a completed ride that some task holds after an action was held before it. */
  lemma HeldBefore(c: Config, a: Action, i: nat, r: Ride)
    requires Rides.ConfigOK(c) && i < |Next(c, a).tasks| && Rides.AboutToSave(Next(c, a).tasks[i], r)
    requires r.id in c.w.rides && c.w.rides[r.id].status == COMPLETED
    ensures i < |c.tasks| && Rides.AboutToSave(c.tasks[i], r)
  {
    hide StepTask, StepConsumer, Rides.AboutToSave, Rides.WorldOK, Rides.TaskOK, Rides.CriticalOK, Admit, Critical;
    match a
    case Spawn(call) =>
      if i == |c.tasks| {
        AdmittedHoldsNothing(c.w, call, r);
      }
    case Step(j, input) =>
      if i == j {
        if c.tasks[j].AcceptWait? {
          WaiterHoldsNothing(c.tasks[j], r);
        } else if !Rides.AboutToSave(c.tasks[j], r) {
          HeldFromOpenRow(c.w, c.tasks[j], input, r);
        }
      }
    case Abort(j) => NothingHeld(Done(Failed), r);
    case _ =>
  }

  lemma AdmittedHoldsNothing(w: World, call: Call, r: Ride)
    requires Admit(w, call).Some?
    ensures !Rides.AboutToSave(Admit(w, call).value, r)
  {
    hide Authenticated;
  }

  lemma WaiterHoldsNothing(t: Task, r: Ride)
    requires t.AcceptWait?
    ensures !Rides.AboutToSave(t, r) && !Rides.AboutToSave(AcceptReadRide(t.ride, t.driver), r)
  {
  }

  lemma {:induction false} FinalForEver(c: Config, more: seq<Action>, id: Id, row: Ride)
    requires Rides.ConfigOK(c) && Final(c, id, row)
    ensures Final(Exec(c, more), id, row)
  {
    if more != [] {
      hide Next, Rides.ConfigOK, Final;
      FinalForEver(c, more[..|more| - 1], id, row);
      Rides.RunLater(c, more[..|more| - 1]);
      FinalStays(Exec(c, more[..|more| - 1]), more[|more| - 1], id, row);
    }
  }

  /** What a task holds in order to save it, it can save next, by itself. */
  lemma HeldCanLand(c: Config, i: nat, r: Ride) returns (more: seq<Action>)
    requires Auth.ConfigOK(c) && i < |c.tasks| && Rides.AboutToSave(c.tasks[i], r)
    ensures r.id in Exec(c, more).w.rides && Exec(c, more).w.rides[r.id] == r
  {
    hide Exec, StepTask, Auth.WorldOK, Auth.TaskOK, Rides.AboutToSave;
    var t := c.tasks[i];
    assert Auth.TaskOK(c.w, t);
    if t.MarkRead? || t.DriverSave? || t.DriverSync? {
      LandsAlone(c.w, t, r);
      more := AloneIsARun(c, i, NOTHING);
    } else {
      more := [Step(i, NOTHING)];
      OneAction(c, Step(i, NOTHING));
      NextWrites(c, Step(i, NOTHING));
      SavedAtOnce(c.w, t, r);
    }
  }

  lemma SavedAtOnce(w: World, t: Task, r: Ride)
    requires Rides.AboutToSave(t, r) && !t.MarkRead? && !t.DriverSave? && !t.DriverSync?
    ensures SavedRow(w, t, NOTHING) == Some(r)
  {
  }

  lemma LandsAlone(w: World, t: Task, r: Ride)
    requires Auth.TaskOK(w, t) && Rides.AboutToSave(t, r) && (t.MarkRead? || t.DriverSave? || t.DriverSync?)
    ensures var w' := Alone(w, t, NOTHING).0; r.id in w'.rides && w'.rides[r.id] == r
  {
    hide Alone, SaveDriver, SaveDriverRow, SyncAvailable, Resumed;
    match t
    case MarkRead(d, flag, k) =>
      MarkAlone(w, d, flag, k, NOTHING);
      LandsAfter(Resumed(SaveDriver(w, w.drivers[d].(isAvailable := flag)), k), k, r);
    case DriverSave(p, k) =>
      SaveAlone(w, p, k, NOTHING);
      LandsAfter(Resumed(SaveDriver(w, p), k), k, r);
    case DriverSync(p, k) =>
      OneStep(w, t, NOTHING);
      LandsAfter(Resumed(SyncAvailable(w, p), k), k, r);
  }

  lemma LandsAfter(w: World, k: Resume, r: Ride)
    requires Rides.ResumesSaving(k, r)
    ensures var w' := Alone(w, Continue(k), NOTHING).0; r.id in w'.rides && w'.rides[r.id] == r
  {
    hide Alone;
    match k
    case ToCancelSave(row) => CancelSaveAlone(w, row, NOTHING);
    case ToAcceptSave(s, driver) => MatchAlone(w, s, driver, NOTHING);
  }

  /** When COMPLETED is final under interleaving: a completed ride's row stays as it is in
      every continuation if and only if no task holds another row of the ride to save. */
  lemma CompletedFinalExactlyWhen(actions: seq<Action>, id: Id)
    requires id in Exec(Start, actions).w.rides && Exec(Start, actions).w.rides[id].status == COMPLETED
    ensures var c := Exec(Start, actions);
            (forall more :: id in Exec(c, more).w.rides && Exec(c, more).w.rides[id] == c.w.rides[id])
            <==> NoOtherRowHeld(c, id, c.w.rides[id])
  {
    hide Exec, Rides.ConfigOK, Auth.ConfigOK, Rides.AboutToSave;
    var c := Exec(Start, actions);
    var row := c.w.rides[id];
    Rides.RunOK(actions);
    Auth.RunOK(actions);
    CompletedId(c, id);
    if NoOtherRowHeld(c, id, row) {
      forall more
        ensures id in Exec(c, more).w.rides && Exec(c, more).w.rides[id] == row
      {
        FinalForEver(c, more, id, row);
      }
    } else {
      var i, r :| 0 <= i < |c.tasks| && Rides.AboutToSave(c.tasks[i], r) && r.id == id && r != row;
      var more := HeldCanLand(c, i, r);
      assert Exec(c, more).w.rides[id] != row;
    }
  }

  lemma CompletedId(c: Config, id: Id)
    requires Rides.ConfigOK(c) && id in c.w.rides
    ensures c.w.rides[id].id == id
  {
    Rides.ReadId(c.w, id);
  }

  // ---------- one active ride per rider ----------

  /** No other ride of the row's rider is active: request_ride's own guard. */
  predicate AloneActive(rides: map<Id, Ride>, r: Ride) {
    forall id :: id in rides && id != r.id ==> !ActiveFor(rides, r.rider, id)
  }

  /** If the action saves an active row, its rider has no other active ride at that moment. */
  predicate GuardedSave(c: Config, a: Action) {
    SavedBy(c, a).Some? && Active(SavedBy(c, a).value.status) ==> AloneActive(c.w.rides, SavedBy(c, a).value)
  }

  lemma SaveKeepsOneExactlyWhen(rides: map<Id, Ride>, r: Ride)
    requires OneActivePerRider(rides)
    ensures OneActivePerRider(rides[r.id := r]) <==> (Active(r.status) ==> AloneActive(rides, r))
  {
    var rides' := rides[r.id := r];
    if Active(r.status) {
      assert ActiveFor(rides', r.rider, r.id);
      forall id | id in rides && id != r.id && ActiveFor(rides, r.rider, id)
        ensures !OneActivePerRider(rides')
      {
        assert ActiveFor(rides', r.rider, id);
      }
    }
    assert forall rider, id :: id != r.id ==> (ActiveFor(rides', rider, id) <==> ActiveFor(rides, rider, id));
  }

  /** One action keeps a rider to one active ride exactly when its save is guarded. */
  lemma OneActiveExactlyWhen(c: Config, a: Action)
    requires OneActivePerRider(c.w.rides)
    ensures OneActivePerRider(Next(c, a).w.rides) <==> GuardedSave(c, a)
  {
    hide Next, SavedBy, OneActivePerRider, AloneActive;
    NextWrites(c, a);
    if SavedBy(c, a).Some? {
      SaveKeepsOneExactlyWhen(c.w.rides, SavedBy(c, a).value);
    }
  }

  /** One active ride per rider after a run and after each shorter one. */
  ghost predicate OneActiveThroughout(actions: seq<Action>) {
    && OneActivePerRider(Exec(Start, actions).w.rides)
    && (actions != [] ==> OneActiveThroughout(actions[..|actions| - 1]))
  }

  /** Every save of an active row along the run is guarded. */
  ghost predicate GuardedThroughout(actions: seq<Action>) {
    actions != [] ==>
      GuardedSave(Exec(Start, actions[..|actions| - 1]), actions[|actions| - 1])
      && GuardedThroughout(actions[..|actions| - 1])
  }

  /** Under any interleaving, riders keep to one active ride all through a run exactly when,
      at every save of an active row, request_ride's guard holds at that very moment. */
  lemma {:induction false} OneActivePerRiderExactlyWhen(actions: seq<Action>)
    ensures OneActiveThroughout(actions) <==> GuardedThroughout(actions)
  {
    hide Next, GuardedSave, OneActivePerRider;
    if actions == [] {
      NoRides();
    } else {
      var init := actions[..|actions| - 1];
      OneActivePerRiderExactlyWhen(init);
      if OneActiveThroughout(init) {
        OneActiveExactlyWhen(Exec(Start, init), actions[|actions| - 1]);
      }
    }
  }

  lemma NoRides()
    ensures OneActivePerRider(Start.w.rides)
  {
  }

  /** The saves that matter: a request's, and an accept's or a start's, which also revives a
      ride cancelled since its row was read. */
  lemma ActiveSaves(actions: seq<Action>, a: Action)
    requires var r := SavedBy(Exec(Start, actions), a); r.Some? && Active(r.value.status)
    ensures var t := Exec(Start, actions).tasks[a.task]; t.RequestSave? || t.AcceptSave? || t.StartSave?
  {
    hide Exec, FareCents;
    Rides.RunOK(actions);
    assert Rides.TaskOK(Exec(Start, actions).w, Exec(Start, actions).tasks[a.task]);
  }

  // ---------- one ride per driver ----------

  ghost predicate OneHeldPerDriver(rides: map<Id, Ride>) {
    forall d, a, b :: Holds(rides, d, a) && Holds(rides, d, b) ==> a == b
  }

  /** The row occupies its driver. */
  predicate Occupies(r: Ride) { r.driver.Some? && Occupying(r.status) }

  /** No other ride occupies the row's driver. */
  predicate AloneHeld(rides: map<Id, Ride>, r: Ride)
    requires r.driver.Some?
  {
    forall id :: id in rides && id != r.id ==> !Holds(rides, r.driver.value, id)
  }

  /** If the action saves a MATCHED or IN_PROGRESS row, its driver holds no other such ride at
      that moment; accept_ride checks the driver's flag instead, and earlier. */
  predicate FreeDriverSave(c: Config, a: Action) {
    SavedBy(c, a).Some? && Occupies(SavedBy(c, a).value) ==> AloneHeld(c.w.rides, SavedBy(c, a).value)
  }

  lemma SaveKeepsOneHeldExactlyWhen(rides: map<Id, Ride>, r: Ride)
    requires OneHeldPerDriver(rides)
    ensures OneHeldPerDriver(rides[r.id := r]) <==> (Occupies(r) ==> AloneHeld(rides, r))
  {
    var rides' := rides[r.id := r];
    if Occupies(r) {
      assert Holds(rides', r.driver.value, r.id);
      forall id | id in rides && id != r.id && Holds(rides, r.driver.value, id)
        ensures !OneHeldPerDriver(rides')
      {
        assert Holds(rides', r.driver.value, id);
      }
    }
    assert forall d, id :: id != r.id ==> (Holds(rides', d, id) <==> Holds(rides, d, id));
  }

  lemma OneHeldExactlyWhen(c: Config, a: Action)
    requires OneHeldPerDriver(c.w.rides)
    ensures OneHeldPerDriver(Next(c, a).w.rides) <==> FreeDriverSave(c, a)
  {
    hide Next, SavedBy, OneHeldPerDriver, AloneHeld, Occupies;
    NextWrites(c, a);
    if SavedBy(c, a).Some? {
      SaveKeepsOneHeldExactlyWhen(c.w.rides, SavedBy(c, a).value);
    }
  }

  ghost predicate OneHeldThroughout(actions: seq<Action>) {
    && OneHeldPerDriver(Exec(Start, actions).w.rides)
    && (actions != [] ==> OneHeldThroughout(actions[..|actions| - 1]))
  }

  ghost predicate FreeDriversThroughout(actions: seq<Action>) {
    actions != [] ==>
      FreeDriverSave(Exec(Start, actions[..|actions| - 1]), actions[|actions| - 1])
      && FreeDriversThroughout(actions[..|actions| - 1])
  }

  /** Under any interleaving, no driver holds two MATCHED or IN_PROGRESS rides all through a
      run exactly when, at every save of such a row, its driver holds no other at that moment. */
  lemma {:induction false} OneHeldPerDriverExactlyWhen(actions: seq<Action>)
    ensures OneHeldThroughout(actions) <==> FreeDriversThroughout(actions)
  {
    hide Next, FreeDriverSave, OneHeldPerDriver;
    if actions == [] {
      NothingHeldYet();
    } else {
      var init := actions[..|actions| - 1];
      OneHeldPerDriverExactlyWhen(init);
      if OneHeldThroughout(init) {
        OneHeldExactlyWhen(Exec(Start, init), actions[|actions| - 1]);
      }
    }
  }

  lemma NothingHeldYet()
    ensures OneHeldPerDriver(Start.w.rides)
  {
  }

  // ---------- a condition callers can keep to ----------

  /** The request has passed its check and has not saved yet. */
  predicate PastCheck(t: Task) {
    t.RequestPending? || t.RequestSearch? || t.RequestFilter?
    || t.RequestCacheGet? || t.RequestCacheSet? || t.RequestSave?
  }

  /** The accept or start is about to save a row of a ride that is no longer active. */
  predicate Reviving(w: World, t: Task) {
    || (t.AcceptSave? && (t.snapshot.id !in w.rides || !Active(w.rides[t.snapshot.id].status)))
    || (t.StartSave? && (t.row.id !in w.rides || !Active(w.rides[t.row.id].status)))
  }

  /** No two requests of one rider are past the check at once, and no accept or start is about
      to save a ride that was cancelled, or completed, meanwhile. */
  predicate Careful(c: Config) {
    && (forall i, j :: 0 <= i < j < |c.tasks| && PastCheck(c.tasks[i]) && PastCheck(c.tasks[j]) ==>
          c.tasks[i].rider != c.tasks[j].rider)
    && (forall i :: 0 <= i < |c.tasks| ==> !Reviving(c.w, c.tasks[i]))
  }

  predicate CarefulThroughout(actions: seq<Action>) {
    Careful(Exec(Start, actions)) && (actions != [] ==> CarefulThroughout(actions[..|actions| - 1]))
  }

  /** What a request past its check found is still so. */
  predicate ChecksHold(c: Config) {
    forall i :: 0 <= i < |c.tasks| && PastCheck(c.tasks[i]) ==> !HasActiveRide(c.w, c.tasks[i].rider)
  }

  lemma CarefulSave(c: Config, a: Action)
    requires Rides.ConfigOK(c) && Careful(c) && ChecksHold(c) && OneActivePerRider(c.w.rides)
    requires SavedBy(c, a).Some? && Active(SavedBy(c, a).value.status)
    ensures AloneActive(c.w.rides, SavedBy(c, a).value)
    ensures var t := c.tasks[a.task];
            if t.RequestSave? then SavedBy(c, a).value.rider == t.rider
            else ActiveFor(c.w.rides, SavedBy(c, a).value.rider, SavedBy(c, a).value.id)
  {
    hide FareCents, Consistent, Rides.DriverCommitted, Rides.WorldOK;
    var t, r := c.tasks[a.task], SavedBy(c, a).value;
    assert Rides.TaskOK(c.w, t) && Rides.CriticalOK(c.w, t);
    if t.RequestSave? {
      assert !HasActiveRide(c.w, t.rider);
    } else {
      assert !Reviving(c.w, t);
      assert ActiveFor(c.w.rides, r.rider, r.id);
    }
  }

  /** After the save, the other requests past their check are of other riders. */
  lemma OthersUnaffected(c: Config, a: Action, j: nat)
    requires Rides.ConfigOK(c) && Careful(c) && ChecksHold(c) && OneActivePerRider(c.w.rides)
    requires j < |c.tasks| && PastCheck(c.tasks[j]) && (a.Step? ==> a.task != j)
    ensures !HasActiveRide(Next(c, a).w, c.tasks[j].rider)
  {
    hide Next, Rides.ConfigOK, SavedRow;
    NextWrites(c, a);
    if SavedBy(c, a).Some? && Active(SavedBy(c, a).value.status) {
      CarefulSave(c, a);
      SaverKind(c, a);
    }
  }

  lemma SaverKind(c: Config, a: Action)
    requires SavedBy(c, a).Some?
    ensures a.Step? && a.task < |c.tasks| && (c.tasks[a.task].RequestSave? ==> PastCheck(c.tasks[a.task]))
  {
  }

  lemma CheckedNext(w: World, t: Task, input: Input)
    requires !t.AcceptWait? && PastCheck(StepTask(w, t, input).1)
    ensures var (w', t') := StepTask(w, t, input);
            w'.rides == w.rides
            && ((t.RequestCheck? && !HasActiveRide(w, t'.rider)) || (PastCheck(t) && t'.rider == t.rider))
  {
    hide HasActiveRide, StepAccept, StepMark, StepLifecycle, StepDriver, StepRate, StepAccount, StepRetry;
    if IsRequest(t) {
      CheckedRequest(w, t, input);
    } else {
      NotARequest(w, t, input);
    }
  }

  lemma CheckedRequest(w: World, t: Task, input: Input)
    requires IsRequest(t) && PastCheck(StepRequest(w, t, input).1)
    ensures var (w', t') := StepRequest(w, t, input);
            w'.rides == w.rides
            && ((t.RequestCheck? && !HasActiveRide(w, t'.rider)) || (PastCheck(t) && t'.rider == t.rider))
  {
    hide HasActiveRide, PendingNear, KeepAvailable, Live, Lookup, ComputeMultiplier, FareCents, StoreSurge, SaveNew,
      PublishRequested, SameAccounts, SameDriverTables;
    RequestFrame(w, t, input);
  }

  /** No other handler turns into a request. */
  lemma NotARequest(w: World, t: Task, input: Input)
    requires !IsRequest(t) && !t.AcceptWait?
    ensures !PastCheck(StepTask(w, t, input).1)
  {
    hide StepRequest, StepAccept, StepMark, StepLifecycle, StepDriver, StepRate, StepAccount, StepRetry;
    if IsAccept(t) || IsMark(t) {
      NotARequestHere(w, t);
    } else if IsLifecycle(t) {
      NotARequestThere(w, t);
    } else if IsDriver(t) {
      DriverGoesOn(w, t, input);
    } else if IsRate(t) {
      RateGoesOn(w, t);
    } else if IsAccount(t) {
      AccountGoesOn(w, t, input);
    } else {
      RetryFrame(w, t, input);
    }
  }

  lemma NotARequestHere(w: World, t: Task)
    ensures IsAccept(t) ==> !PastCheck(StepAccept(w, t).1)
    ensures IsMark(t) ==> !PastCheck(StepMark(w, t).1)
  {
    hide SaveMatch, PublishAccepted, SaveDriverRow, SyncAvailable, Resumed;
  }

  lemma NotARequestThere(w: World, t: Task)
    requires IsLifecycle(t)
    ensures !PastCheck(StepLifecycle(w, t).1)
  {
    hide SaveRide, PublishCompleted, PublishCancelled;
  }

  lemma ChecksStay(c: Config, a: Action)
    requires Rides.ConfigOK(c) && Careful(c) && ChecksHold(c) && OneActivePerRider(c.w.rides)
    ensures ChecksHold(Next(c, a))
  {
    hide Rides.ConfigOK, StepTask, HasActiveRide, Careful, Admit, Critical, StepConsumer;
    var c' := Next(c, a);
    forall i | 0 <= i < |c'.tasks| && PastCheck(c'.tasks[i])
      ensures !HasActiveRide(c'.w, c'.tasks[i].rider)
    {
      if a.Step? && a.task == i {
        StepperChecked(c, i, a.input);
      } else {
        StillPastCheck(c, a, i);
        OthersUnaffected(c, a, i);
      }
    }
  }

  lemma StepperChecked(c: Config, i: nat, input: Input)
    requires ChecksHold(c) && i < |Next(c, Step(i, input)).tasks| && PastCheck(Next(c, Step(i, input)).tasks[i])
    ensures var c' := Next(c, Step(i, input)); !HasActiveRide(c'.w, c'.tasks[i].rider)
  {
    hide StepTask, Critical, HasActiveRide;
    if c.tasks[i].AcceptWait? {
      WaiterNotPast(c.tasks[i]);
    } else {
      CheckedNext(c.w, c.tasks[i], input);
      SameRidesSameCheck(c.w, Next(c, Step(i, input)).w, Next(c, Step(i, input)).tasks[i].rider);
    }
  }

  lemma SameRidesSameCheck(w: World, w': World, rider: Id)
    requires w'.rides == w.rides
    ensures HasActiveRide(w', rider) == HasActiveRide(w, rider)
  {
  }

  lemma WaiterNotPast(t: Task)
    requires t.AcceptWait?
    ensures !PastCheck(t) && !PastCheck(AcceptReadRide(t.ride, t.driver))
  {
  }

  lemma StillPastCheck(c: Config, a: Action, i: nat)
    requires i < |Next(c, a).tasks| && PastCheck(Next(c, a).tasks[i]) && (a.Step? ==> a.task != i)
    ensures i < |c.tasks| && c.tasks[i] == Next(c, a).tasks[i]
  {
    hide StepTask, StepConsumer, Critical;
    if a.Spawn? && i == |c.tasks| {
      AdmittedNotPast(c.w, a.call);
    }
  }

  lemma AdmittedNotPast(w: World, call: Call)
    requires Admit(w, call).Some?
    ensures !PastCheck(Admit(w, call).value)
  {
    hide Authenticated;
  }

  /** A sufficient condition a caller can keep to: in a careful run, however interleaved,
      every rider has at most one active ride. */
  lemma {:induction false} CarefulRunsKeepOneActive(actions: seq<Action>)
    requires CarefulThroughout(actions)
    ensures OneActivePerRider(Exec(Start, actions).w.rides) && ChecksHold(Exec(Start, actions))
  {
    hide Next, OneActivePerRider, ChecksHold, Careful;
    if actions == [] {
      NoRides();
      NothingPastCheck();
    } else {
      var init, a := actions[..|actions| - 1], actions[|actions| - 1];
      CarefulRunsKeepOneActive(init);
      var c := Exec(Start, init);
      Rides.RunOK(init);
      ChecksStay(c, a);
      CarefulIsGuarded(c, a);
      OneActiveExactlyWhen(c, a);
    }
  }

  lemma CarefulIsGuarded(c: Config, a: Action)
    requires Rides.ConfigOK(c) && Careful(c) && ChecksHold(c) && OneActivePerRider(c.w.rides)
    ensures GuardedSave(c, a)
  {
    hide Rides.ConfigOK, Careful, ChecksHold, OneActivePerRider, SavedBy, AloneActive;
    if SavedBy(c, a).Some? && Active(SavedBy(c, a).value.status) {
      CarefulSave(c, a);
    }
  }

  lemma NothingPastCheck()
    ensures ChecksHold(Start)
  {
  }
}

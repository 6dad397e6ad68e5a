/** What every interleaving keeps about rides: rows and in-flight snapshots are consistent,
    a trip never changes, at most one accept of a ride is ever saved, and an accepted ride's
    offers stay retracted. */
module MachineRides {
  import opened Models
  import opened Fares
  import opened Dispatch
  import opened Worlds
  import opened RideRows
  import opened Machine
  import opened MachineFrames

  // ---------- invariant ----------

  /** The ride's driver, if any, is the one whose accept of it was saved. */
  predicate DriverCommitted(w: World, r: Ride) {
    r.driver.Some? ==> r.id in w.commits && w.commits[r.id] == [r.driver.value]
  }

  /** A row or snapshot is of a stored ride and tells a consistent story of its trip. */
  predicate SnapshotOK(w: World, r: Ride) {
    r.id in w.rides && SameTrip(r, w.rides[r.id]) && Consistent(r) && DriverCommitted(w, r)
  }

  /** No handler but request_ride ever saves a REQUESTED row. */
  predicate SavableRow(w: World, r: Ride) {
    SnapshotOK(w, r) && r.status != REQUESTED
  }

  predicate RowOK(w: World, id: Id)
    requires id in w.rides
  {
    && w.rides[id].id == id && SnapshotOK(w, w.rides[id])
    && (w.rides[id].status == REQUESTED ==> id !in w.commits)
  }

  predicate RowsOK(w: World) {
    forall id :: id in w.rides ==> RowOK(w, id)
  }

  predicate CommitsOK(w: World) {
    && (forall id :: id in w.commits ==> id in w.rides && |w.commits[id]| == 1)
    && (forall i :: 0 <= i < |w.accepted| ==> w.accepted[i] in w.commits)
    && (forall i, j :: 0 <= i < j < |w.accepted| ==> w.accepted[i] != w.accepted[j])
  }

  predicate ResumeOK(w: World, k: Resume) {
    k.ToCancelSave? ==> SavableRow(w, k.row) && k.row.status == CANCELLED
  }

  /** The rows a task is about to save. */
  predicate TaskOK(w: World, t: Task) {
    match t
    case StartSave(row) => SavableRow(w, row) && row.status == IN_PROGRESS
    case CompleteSave(row, _) => SavableRow(w, row) && row.status == COMPLETED
    case CancelSave(row) => SavableRow(w, row) && row.status == CANCELLED
    case MarkRead(_, _, k) => ResumeOK(w, k)
    case DriverSave(_, k) => ResumeOK(w, k)
    case DriverSync(_, k) => ResumeOK(w, k)
    case _ => true
  }

  /** What the lock's holder has read cannot have been accepted by anyone since. */
  predicate UnacceptedSnapshot(w: World, s: Ride) {
    SnapshotOK(w, s) && s.status == REQUESTED && s.id !in w.commits
  }

  predicate CriticalOK(w: World, t: Task) {
    match t
    case AcceptReadDriver(s, _) => UnacceptedSnapshot(w, s)
    case AcceptSave(s, _) => UnacceptedSnapshot(w, s)
    case MarkRead(_, _, k) => k.ToAcceptSave? ==> UnacceptedSnapshot(w, k.snapshot)
    case DriverSave(_, k) => k.ToAcceptSave? ==> UnacceptedSnapshot(w, k.snapshot)
    case DriverSync(_, k) => k.ToAcceptSave? ==> UnacceptedSnapshot(w, k.snapshot)
    case AcceptPublish(saved) => saved.id in w.commits && saved.id !in w.accepted
    case _ => true
  }

  /** The consumer handles a ride-accepted message only of a ride whose accept was saved. */
  predicate ConsumerOK(w: World, c: Consumer) {
    match c
    case TellRead(id) => id in w.commits
    case TellLocate(r) => r.id in w.commits
    case TellMembers(r) => r.id in w.commits
    case TellDelete(id) => id in w.commits
    case _ => true
  }

  predicate WorldOK(w: World) { RowsOK(w) && CommitsOK(w) }

  predicate Locked(c: Config, i: nat)
    requires i < |c.tasks|
  {
    Critical(c.tasks[i]) <==> c.lock == Some(i)
  }

  predicate TasksOK(c: Config) {
    forall i :: 0 <= i < |c.tasks| ==>
      TaskOK(c.w, c.tasks[i]) && CriticalOK(c.w, c.tasks[i]) && Locked(c, i)
  }

  predicate ConfigOK(c: Config) {
    && WorldOK(c.w) && TasksOK(c) && ConsumerOK(c.w, c.consumer)
    && (c.lock.Some? ==> c.lock.value < |c.tasks|)
  }

  // ---------- what steps leave alone ----------

  /** Rides stay, with their trips; once a ride is not REQUESTED it never is again; a saved
      accept is never undone or followed by another. */
  predicate Later(w: World, w': World) {
    && (forall id :: id in w.rides ==>
          id in w'.rides && SameTrip(w.rides[id], w'.rides[id])
          && (w.rides[id].status != REQUESTED ==> w'.rides[id].status != REQUESTED))
    && (forall id :: id in w.commits ==> id in w'.commits && w'.commits[id] == w.commits[id])
  }

  predicate SameRides(w: World, w': World) {
    w'.rides == w.rides && w'.commits == w.commits && w'.accepted == w.accepted
  }

  lemma SnapshotStays(w: World, w': World, r: Ride)
    requires Later(w, w') && SnapshotOK(w, r)
    ensures SnapshotOK(w', r)
  {
  }

  lemma TaskStays(w: World, w': World, t: Task)
    requires Later(w, w') && TaskOK(w, t)
    ensures TaskOK(w', t)
  {
    hide Later, SnapshotOK;
    forall r: Ride | SnapshotOK(w, r)
      ensures SnapshotOK(w', r)
    {
      SnapshotStays(w, w', r);
    }
  }

  lemma CriticalStays(w: World, w': World, t: Task)
    requires Later(w, w') && CriticalOK(w, t)
    requires w'.commits == w.commits && w'.accepted == w.accepted
    ensures CriticalOK(w', t)
  {
    hide Later, SnapshotOK;
    forall r: Ride | SnapshotOK(w, r)
      ensures SnapshotOK(w', r)
    {
      SnapshotStays(w, w', r);
    }
  }

  lemma LaterTransitive(w1: World, w2: World, w3: World)
    requires Later(w1, w2) && Later(w2, w3)
    ensures Later(w1, w3)
  {
  }

  // ---------- one step of one task ----------

  /** A step from task t to t' is safe for rides. */
  predicate Safe(w: World, t: Task, w': World, t': Task) {
    && WorldOK(w') && Later(w, w') && TaskOK(w', t') && CriticalOK(w', t')
    && (Critical(t') ==> Critical(t))
    && (!Critical(t) ==> w'.commits == w.commits && w'.accepted == w.accepted)
  }

  lemma SameRidesSafe(w: World, w': World)
    requires WorldOK(w) && SameRides(w, w')
    ensures WorldOK(w') && Later(w, w')
  {
    assert forall id :: id in w.rides ==> RowOK(w, id);
  }

  /** A full-row replace by a savable row. */
  lemma SaveSafe(w: World, row: Ride)
    requires WorldOK(w) && SavableRow(w, row)
    ensures WorldOK(SaveRide(w, row)) && Later(w, SaveRide(w, row))
  {
    assert forall id :: id in w.rides ==> RowOK(w, id);
  }

  lemma NewSafe(w: World, r: Ride, q: Quotation)
    requires WorldOK(w) && r.id !in w.rides && Consistent(r) && r.status == REQUESTED
    ensures WorldOK(SaveNew(w, r, q)) && Later(w, SaveNew(w, r, q))
  {
    assert forall id :: id in w.rides ==> RowOK(w, id);
  }

  lemma MatchSafe(w: World, s: Ride, driver: Id)
    requires WorldOK(w) && UnacceptedSnapshot(w, s)
    ensures WorldOK(SaveMatch(w, s, driver)) && Later(w, SaveMatch(w, s, driver))
  {
    hide RowOK, SnapshotOK, Later;
    MatchLater(w, s, driver);
    forall id | id in SaveMatch(w, s, driver).rides
      ensures RowOK(SaveMatch(w, s, driver), id)
    {
      MatchRow(w, s, driver, id);
    }
    SavedCommit(w, s, driver);
  }

  lemma MatchLater(w: World, s: Ride, driver: Id)
    requires UnacceptedSnapshot(w, s)
    ensures Later(w, SaveMatch(w, s, driver))
  {
  }

  lemma MatchRow(w: World, s: Ride, driver: Id, id: Id)
    requires WorldOK(w) && UnacceptedSnapshot(w, s) && id in SaveMatch(w, s, driver).rides
    ensures RowOK(SaveMatch(w, s, driver), id)
  {
    assert id in w.rides ==> RowOK(w, id);
    assert [] + [driver] == [driver];
  }

  lemma RequestSafe(w: World, t: Task, input: Input)
    requires WorldOK(w) && IsRequest(t)
    ensures Safe(w, t, StepRequest(w, t, input).0, StepRequest(w, t, input).1)
  {
    hide WorldOK, Later, StepRequest;
    var (w', t') := StepRequest(w, t, input);
    RequestFrame(w, t, input);
    CalmTask(w', t');
    if t.RequestSave? && t' != t {
      NewRideSaved(w, t, input);
    } else {
      SameRidesSafe(w, w');
    }
  }

  lemma NewRideSaved(w: World, t: Task, input: Input)
    requires WorldOK(w) && t.RequestSave? && StepRequest(w, t, input).1 != t
    ensures WorldOK(StepRequest(w, t, input).0) && Later(w, StepRequest(w, t, input).0)
  {
    hide FareCents, SaveNew, WorldOK, Later;
    NewSafe(w, StepRequest(w, t, input).1.saved,
            Quotation(t.trip, t.multiplier, t.servedAt));
  }

  /** Tasks about to save no existing ride. */
  lemma CalmTask(w: World, t: Task)
    requires IsRequest(t) || Judging(t) || t.RateUserSave? || Accounting(t) || Placing(t)
             || t.Done? || t.RetryFind? || t.RetryPublish?
    ensures TaskOK(w, t) && CriticalOK(w, t) && !Critical(t)
  {
  }

  /** Rows as read, and what replace(...) makes of them. */
  lemma ReadRow(w: World, id: Id)
    requires WorldOK(w) && id in w.rides
    ensures var r := w.rides[id];
            (r.status == REQUESTED ==> UnacceptedSnapshot(w, r))
            && (r.status == MATCHED ==> SavableRow(w, Started(r)))
            && (r.status == IN_PROGRESS ==> SavableRow(w, Completed(r, w.now)))
            && (r.status != IN_PROGRESS && r.status != COMPLETED ==> SavableRow(w, Cancelled(r)))
  {
    assert RowOK(w, id);
  }

  lemma AcceptSafe(w: World, t: Task)
    requires WorldOK(w) && CriticalOK(w, t) && IsAccept(t)
    ensures Safe(w, t, StepAccept(w, t).0, StepAccept(w, t).1)
  {
    hide WorldOK, Later, SnapshotOK;
    match t
    case AcceptSave(s, driver) =>
      MatchSafe(w, s, driver);
      SavedCommit(w, s, driver);
    case AcceptPublish(saved) => PublishSafe(w, saved.id);
    case AcceptReadRide(ride, driver) =>
      SameRidesSafe(w, w);
      if ride in w.rides {
        ReadRow(w, ride);
      }
    case AcceptReadDriver(_, _) => SameRidesSafe(w, w);
    case AcceptRelease(_) => SameRidesSafe(w, w);
  }

  lemma SavedCommit(w: World, s: Ride, driver: Id)
    requires WorldOK(w) && UnacceptedSnapshot(w, s)
    ensures var w' := SaveMatch(w, s, driver); s.id in w'.commits && s.id !in w'.accepted
  {
    assert s.id !in w.accepted;
  }

  lemma PublishSafe(w: World, id: Id)
    requires WorldOK(w) && id in w.commits && id !in w.accepted
    ensures WorldOK(PublishAccepted(w, id)) && Later(w, PublishAccepted(w, id))
  {
    assert forall r :: r in w.rides ==> RowOK(w, r);
  }

  lemma MarkSafe(w: World, t: Task)
    requires WorldOK(w) && TaskOK(w, t) && CriticalOK(w, t) && IsMark(t)
    ensures Safe(w, t, StepMark(w, t).0, StepMark(w, t).1)
  {
    hide WorldOK, Later, SnapshotOK, SaveDriverRow, SyncAvailable, Resumed;
    var (w', t') := StepMark(w, t);
    MarkFrame(w, t);
    SameRidesSafe(w, w');
    TaskStays(w, w', t);
    CriticalStays(w, w', t);
  }

  lemma LifecycleSafe(w: World, t: Task)
    requires WorldOK(w) && TaskOK(w, t) && IsLifecycle(t)
    ensures Safe(w, t, StepLifecycle(w, t).0, StepLifecycle(w, t).1)
  {
    hide StepLifecycle, Safe, WorldOK, TaskOK;
    if t.StartSave? || t.CompleteSave? || t.CancelSave? {
      SavingSafe(w, t);
    } else if t.CompletePublish? || t.CancelPublish? {
      PublishingSafe(w, t);
    } else {
      ReadSafe(w, t);
    }
  }

  lemma SavingSafe(w: World, t: Task)
    requires WorldOK(w) && TaskOK(w, t) && (t.StartSave? || t.CompleteSave? || t.CancelSave?)
    ensures Safe(w, t, StepLifecycle(w, t).0, StepLifecycle(w, t).1)
  {
    hide WorldOK, Later, SavableRow, SaveRide;
    SavedFurther(w, t.row);
  }

  lemma PublishingSafe(w: World, t: Task)
    requires WorldOK(w) && (t.CompletePublish? || t.CancelPublish?)
    ensures Safe(w, t, StepLifecycle(w, t).0, StepLifecycle(w, t).1)
  {
    hide WorldOK, Later, SavableRow, PublishCompleted, PublishCancelled;
    PublishedSafe(w, t.saved.id);
  }

  lemma ReadSafe(w: World, t: Task)
    requires WorldOK(w) && (t.StartRead? || t.CompleteRead? || t.CancelRead?)
    ensures Safe(w, t, StepLifecycle(w, t).0, StepLifecycle(w, t).1)
  {
    hide WorldOK, Later, SavableRow;
    ReadFurther(w, t.ride);
  }

  lemma SavedFurther(w: World, row: Ride)
    requires WorldOK(w) && SavableRow(w, row)
    ensures WorldOK(SaveRide(w, row)) && Later(w, SaveRide(w, row))
    ensures SaveRide(w, row).commits == w.commits && SaveRide(w, row).accepted == w.accepted
  {
    hide WorldOK, Later;
    SaveSafe(w, row);
  }

  lemma PublishedSafe(w: World, id: Id)
    requires WorldOK(w)
    ensures var w' := PublishCompleted(w, id);
            WorldOK(w') && Later(w, w') && w'.commits == w.commits && w'.accepted == w.accepted
    ensures var w' := PublishCancelled(w, id);
            WorldOK(w') && Later(w, w') && w'.commits == w.commits && w'.accepted == w.accepted
  {
    hide WorldOK, Later, PublishCompleted, PublishCancelled;
    PublishFrame(w, id);
    SameRidesSafe(w, PublishCompleted(w, id));
    SameRidesSafe(w, PublishCancelled(w, id));
  }

  lemma ReadFurther(w: World, ride: Id)
    requires WorldOK(w)
    ensures Later(w, w)
    ensures ride in w.rides ==>
              var r := w.rides[ride];
              (r.status == MATCHED ==> SavableRow(w, Started(r)))
              && (r.status == IN_PROGRESS ==> SavableRow(w, Completed(r, w.now)))
              && (r.status != IN_PROGRESS && r.status != COMPLETED ==> SavableRow(w, Cancelled(r)))
  {
    hide WorldOK, Later, SavableRow;
    SameRidesSafe(w, w);
    if ride in w.rides {
      ReadRow(w, ride);
    }
  }

  /** Tasks that never touch rides. */
  lemma ElsewhereSafe(w: World, t: Task, input: Input)
    requires WorldOK(w) && !IsRequest(t) && !IsAccept(t) && !IsMark(t) && !IsLifecycle(t) && !t.AcceptWait?
    ensures Safe(w, t, StepTask(w, t, input).0, StepTask(w, t, input).1)
  {
    hide WorldOK, Later, TaskOK, CriticalOK, Critical, StepRequest, StepAccept, StepMark, StepLifecycle, StepDriver,
      StepRate, StepAccount, StepRetry;
    if IsDriver(t) {
      DriverFrame(w, t, input);
      DriverGoesOn(w, t, input);
    } else if IsRate(t) {
      RateFrame(w, t);
      RateGoesOn(w, t);
    } else if IsAccount(t) {
      AccountFrame(w, t, input);
      AccountGoesOn(w, t, input);
    } else {
      RetryFrame(w, t, input);
    }
    SameRidesSafe(w, StepTask(w, t, input).0);
    CalmTask(StepTask(w, t, input).0, StepTask(w, t, input).1);
  }

  lemma StepSafe(w: World, t: Task, input: Input)
    requires WorldOK(w) && TaskOK(w, t) && CriticalOK(w, t) && !t.AcceptWait?
    ensures Safe(w, t, StepTask(w, t, input).0, StepTask(w, t, input).1)
  {
    hide Safe, WorldOK, TaskOK, CriticalOK, StepRequest, StepAccept, StepMark, StepLifecycle,
      StepDriver, StepRate, StepAccount, StepRetry;
    if IsRequest(t) {
      RequestSafe(w, t, input);
    } else if IsAccept(t) {
      AcceptSafe(w, t);
    } else if IsMark(t) {
      MarkSafe(w, t);
    } else if IsLifecycle(t) {
      LifecycleSafe(w, t);
    } else {
      ElsewhereSafe(w, t, input);
    }
  }

  // ---------- one action ----------

  lemma ConsumerStays(w: World, w': World, c: Consumer)
    requires Later(w, w') && ConsumerOK(w, c)
    ensures ConsumerOK(w', c)
  {
  }

  lemma AdvanceOK(c: Config, i: nat, w': World, t': Task)
    requires ConfigOK(c) && i < |c.tasks| && Safe(c.w, c.tasks[i], w', t')
    ensures ConfigOK(Advance(c, i, w', t'))
  {
    hide WorldOK, Later, TaskOK, CriticalOK, Critical, ConsumerOK;
    var c' := Advance(c, i, w', t');
    forall j | 0 <= j < |c'.tasks|
      ensures TaskOK(w', c'.tasks[j]) && CriticalOK(w', c'.tasks[j]) && Locked(c', j)
    {
      assert Locked(c, j) && Locked(c, i);
      if j != i {
        TaskStays(c.w, w', c.tasks[j]);
        if Critical(c.tasks[i]) {
          NotCritical(w', c.tasks[j]);
        } else {
          CriticalStays(c.w, w', c.tasks[j]);
        }
      }
    }
    ConsumerStays(c.w, w', c.consumer);
  }

  lemma NotCritical(w: World, t: Task)
    requires !Critical(t)
    ensures CriticalOK(w, t)
  {
  }

  lemma AcquireOK(c: Config, i: nat)
    requires ConfigOK(c) && i < |c.tasks| && c.tasks[i].AcceptWait?
    ensures ConfigOK(Acquire(c, i))
  {
    hide WorldOK;
    if c.lock.None? {
      var c' := Acquire(c, i);
      forall j | 0 <= j < |c'.tasks|
        ensures TaskOK(c'.w, c'.tasks[j]) && CriticalOK(c'.w, c'.tasks[j]) && Locked(c', j)
      {
        assert Locked(c, j);
      }
    }
  }

  lemma AdmitOK(w: World, call: Call)
    ensures Admit(w, call).Some? ==>
              TaskOK(w, Admit(w, call).value) && CriticalOK(w, Admit(w, call).value)
              && !Critical(Admit(w, call).value)
  {
  }

  lemma WorldMoves(c: Config, w': World, consumer: Consumer)
    requires ConfigOK(c) && SameRides(c.w, w') && ConsumerOK(w', consumer)
    ensures ConfigOK(c.(w := w', consumer := consumer))
  {
    hide WorldOK, Later, TaskOK, CriticalOK, ConsumerOK;
    SameRidesSafe(c.w, w');
    forall j | 0 <= j < |c.tasks|
      ensures TaskOK(w', c.tasks[j]) && CriticalOK(w', c.tasks[j])
    {
      assert Locked(c, j);
      TaskStays(c.w, w', c.tasks[j]);
      CriticalStays(c.w, w', c.tasks[j]);
    }
    assert forall j :: 0 <= j < |c.tasks| ==> Locked(c, j);
  }

  lemma HandleOK(w: World, c: Consumer, input: Input)
    requires WorldOK(w) && ConsumerOK(w, c)
    ensures SameRides(w, StepConsumer(w, c, input).0)
    ensures ConsumerOK(w, StepConsumer(w, c, input).1)
    ensures ConsumerOK(StepConsumer(w, c, input).0, StepConsumer(w, c, input).1)
  {
    hide StepConsumer, ConsumerOK;
    ConsumerFrame(w, c, input);
    ConsumerNext(w, c, input);
    ConsumerStays(w, StepConsumer(w, c, input).0, StepConsumer(w, c, input).1);
  }

  lemma ConsumerNext(w: World, c: Consumer, input: Input)
    requires WorldOK(w) && ConsumerOK(w, c)
    ensures ConsumerOK(w, StepConsumer(w, c, input).1)
  {
    hide KeepAvailable, Record, DriversIn, TellEta, CloseStream, WorldOK;
    if c.TellRead? && c.id in w.rides {
      ReadId(w, c.id);
    }
  }

  lemma NextOK(c: Config, a: Action)
    requires ConfigOK(c)
    ensures ConfigOK(Next(c, a)) && Later(c.w, Next(c, a).w)
  {
    hide StepTask, StepConsumer, WorldOK, TaskOK, CriticalOK, Admit;
    SameRidesSafe(c.w, c.w);
    match a
    case Spawn(call) =>
      AdmitOK(c.w, call);
      assert forall j :: 0 <= j < |c.tasks| ==> Locked(c, j);
    case Step(i, input) =>
      if i < |c.tasks| {
        if c.tasks[i].AcceptWait? {
          AcquireOK(c, i);
        } else {
          StepSafe(c.w, c.tasks[i], input);
          AdvanceOK(c, i, StepTask(c.w, c.tasks[i], input).0, StepTask(c.w, c.tasks[i], input).1);
        }
      }
    case Abort(i) =>
      if i < |c.tasks| {
        AbortSafe(c.w, c.tasks[i]);
        AdvanceOK(c, i, c.w, Done(Failed));
      }
    case Consume(topic, index) =>
      if c.consumer.Idle? {
        DeliverOK(c, topic, index);
        WorldMoves(c, c.w, Deliver(c, topic, index));
      }
    case Handle(input) =>
      HandleOK(c.w, c.consumer, input);
      WorldMoves(c, StepConsumer(c.w, c.consumer, input).0, StepConsumer(c.w, c.consumer, input).1);
      SameRidesSafe(c.w, StepConsumer(c.w, c.consumer, input).0);
    case AbortHandler => WorldMoves(c, c.w, Idle);
    case Tick(seconds) =>
      WorldMoves(c, c.w.(now := c.w.now + seconds), c.consumer);
      SameRidesSafe(c.w, c.w.(now := c.w.now + seconds));
  }

  lemma AbortSafe(w: World, t: Task)
    requires WorldOK(w)
    ensures Safe(w, t, w, Done(Failed))
  {
    SameRidesSafe(w, w);
  }

  lemma DeliverOK(c: Config, topic: Topic, index: nat)
    requires WorldOK(c.w)
    ensures ConsumerOK(c.w, Deliver(c, topic, index))
  {
  }

  // ---------- every run ----------

  lemma {:induction false} RunOK(actions: seq<Action>)
    ensures ConfigOK(Exec(Start, actions))
  {
    if actions != [] {
      hide Next, ConfigOK;
      RunOK(actions[..|actions| - 1]);
      NextOK(Exec(Start, actions[..|actions| - 1]), actions[|actions| - 1]);
    } else {
      StartOK();
    }
  }

  lemma StartOK()
    ensures ConfigOK(Start)
  {
  }

  lemma {:induction false} RunLater(c: Config, more: seq<Action>)
    requires ConfigOK(c)
    ensures ConfigOK(Exec(c, more)) && Later(c.w, Exec(c, more).w)
  {
    hide Next, ConfigOK, Later;
    if more == [] {
      Unchanged(c);
    } else {
      var init := Exec(c, more[..|more| - 1]);
      RunLater(c, more[..|more| - 1]);
      NextOK(init, more[|more| - 1]);
      LaterTransitive(c.w, init.w, Exec(c, more).w);
    }
  }

  lemma Unchanged(c: Config)
    requires ConfigOK(c)
    ensures Later(c.w, c.w)
  {
    SameRidesSafe(c.w, c.w);
  }

  // ---------- what this says of every run ----------

  /** Row consistency: in every interleaving every stored row, and every row a task is about
      to save, tells a consistent story, though rows can be overwritten by stale tasks. */
  lemma RowsAndSnapshotsConsistent(actions: seq<Action>)
    ensures var c := Exec(Start, actions);
            (forall id :: id in c.w.rides ==> c.w.rides[id].id == id && Consistent(c.w.rides[id]))
            && (forall i, r :: 0 <= i < |c.tasks| && AboutToSave(c.tasks[i], r) ==>
                  Consistent(r) && r.id in c.w.rides && SameTrip(r, c.w.rides[r.id]) && r.status != REQUESTED)
  {
    hide Exec;
    RunOK(actions);
    var c := Exec(Start, actions);
    assert forall id :: id in c.w.rides ==> RowOK(c.w, id);
    forall i, r | 0 <= i < |c.tasks| && AboutToSave(c.tasks[i], r)
      ensures Consistent(r) && r.id in c.w.rides && SameTrip(r, c.w.rides[r.id]) && r.status != REQUESTED
    {
      assert TaskOK(c.w, c.tasks[i]) && CriticalOK(c.w, c.tasks[i]);
    }
  }

  /** The task has computed row r and holds it, to save it now or after a detour. */
  predicate AboutToSave(t: Task, r: Ride) {
    match t
    case StartSave(row) => r == row
    case CompleteSave(row, _) => r == row
    case CancelSave(row) => r == row
    case AcceptSave(s, driver) => r == Matched(s, driver)
    case MarkRead(_, _, k) => ResumesSaving(k, r)
    case DriverSave(_, k) => ResumesSaving(k, r)
    case DriverSync(_, k) => ResumesSaving(k, r)
    case _ => false
  }

  predicate ResumesSaving(k: Resume, r: Ride) {
    (k.ToCancelSave? && r == k.row) || (k.ToAcceptSave? && r == Matched(k.snapshot, k.driver))
  }

  /** At most one accept of a ride is ever saved, in every interleaving with every other
      handler; so a ride is published at most once as accepted. */
  lemma AtMostOneAccept(actions: seq<Action>)
    ensures var w := Exec(Start, actions).w;
            (forall id :: id in w.commits ==> |w.commits[id]| == 1)
            && (forall i, j :: 0 <= i < j < |w.accepted| ==> w.accepted[i] != w.accepted[j])
            && (forall i :: 0 <= i < |w.accepted| ==> w.accepted[i] in w.commits)
  {
    RunOK(actions);
  }

  /** No ride row ever carries two different drivers over a run. */
  lemma NeverTwoDrivers(actions: seq<Action>, more: seq<Action>, id: Id)
    requires id in Exec(Start, actions).w.rides && Exec(Start, actions).w.rides[id].driver.Some?
    ensures var w, w' := Exec(Start, actions).w, Exec(Start, actions + more).w;
            id in w'.rides && (w'.rides[id].driver.Some? ==> w'.rides[id].driver == w.rides[id].driver)
  {
    hide Exec, Later;
    var c := Exec(Start, actions);
    RunOK(actions);
    ExecConcat(Start, actions, more);
    RunLater(c, more);
    CommittedDrivers(c.w, Exec(c, more).w, id);
  }

  lemma CommittedDrivers(w: World, w': World, id: Id)
    requires RowsOK(w) && RowsOK(w') && Later(w, w') && id in w.rides && w.rides[id].driver.Some?
    ensures id in w'.rides && (w'.rides[id].driver.Some? ==> w'.rides[id].driver == w.rides[id].driver)
  {
    assert RowOK(w, id) && RowOK(w', id);
  }

  /** Who rides, from where to where, since when and at which quote never changes, whatever
      stale rows are saved; and no ride becomes REQUESTED again. */
  lemma TripsNeverChange(actions: seq<Action>, more: seq<Action>, id: Id)
    requires id in Exec(Start, actions).w.rides
    ensures var r := Exec(Start, actions).w.rides[id]; var rides' := Exec(Start, actions + more).w.rides;
            id in rides' && SameTrip(r, rides'[id])
            && (r.status != REQUESTED ==> rides'[id].status != REQUESTED)
            && (rides'[id].fare.Some? ==> rides'[id].fare == r.estimatedFare)
  {
    hide Exec;
    RunOK(actions);
    ExecConcat(Start, actions, more);
    RunLater(Exec(Start, actions), more);
    assert RowOK(Exec(Exec(Start, actions), more).w, id);
  }

  // ---------- retracted offers ----------

  /** The ride has no dispatched: set, and nothing under way can give it one. */
  predicate Settled(c: Config, id: Id) {
    && id in c.w.rides && c.w.rides[id].status != REQUESTED
    && id !in c.w.offers
    && !Fanning(c.consumer, id)
  }

  /** The consumer is on its way to record offers of the ride. */
  predicate Fanning(c: Consumer, id: Id) {
    (c.FanSearch? || c.FanFilter? || c.FanRecord?) && c.ride.id == id
  }

  /** Only the consumer writes the dispatched: sets. */
  lemma OffersElsewhere(c: Config, a: Action)
    requires !a.Handle?
    ensures Next(c, a).w.offers == c.w.offers
  {
    hide Admit;
    match a
    case Step(i, input) =>
      if i < |c.tasks| && !c.tasks[i].AcceptWait? {
        StepLeavesOffers(c.w, c.tasks[i], input);
      }
    case _ =>
  }

  lemma StepLeavesOffers(w: World, t: Task, input: Input)
    requires !t.AcceptWait?
    ensures StepTask(w, t, input).0.offers == w.offers
  {
    hide StepRequest, StepAccept, StepMark, StepLifecycle, StepDriver, StepRate, StepAccount, StepRetry, SameAccounts;
    if IsRequest(t) {
      RequestFrame(w, t, input);
    } else if IsAccept(t) {
      AcceptLeaves(w, t);
    } else if IsMark(t) {
      MarkFrame(w, t);
    } else if IsLifecycle(t) {
      LifecycleLeaves(w, t);
    } else if IsDriver(t) {
      DriverFrame(w, t, input);
    } else if IsRate(t) {
      RateFrame(w, t);
    } else if IsAccount(t) {
      AccountFrame(w, t, input);
    } else {
      RetryFrame(w, t, input);
    }
  }

  lemma ConsumerKeepsSettled(w: World, consumer: Consumer, input: Input, id: Id)
    requires WorldOK(w) && id in w.rides && w.rides[id].status != REQUESTED
    requires id !in w.offers && !Fanning(consumer, id)
    ensures id !in StepConsumer(w, consumer, input).0.offers
    ensures StepConsumer(w, consumer, input).0.rides == w.rides
    ensures !Fanning(StepConsumer(w, consumer, input).1, id)
  {
    hide StepConsumer, WorldOK, Fanning;
    ConsumerFrame(w, consumer, input);
    NotFanningOn(w, consumer, input, id);
    if consumer.FanRecord? || consumer.TellDelete? {
      WritesElsewhere(w, consumer, input, id);
    }
  }

  lemma NotFanningOn(w: World, consumer: Consumer, input: Input, id: Id)
    requires WorldOK(w) && id in w.rides && w.rides[id].status != REQUESTED && !Fanning(consumer, id)
    ensures !Fanning(StepConsumer(w, consumer, input).1, id)
  {
    hide KeepAvailable, DriversIn, WorldOK, Record, TellEta, CloseStream;
    if consumer.FanRead? && consumer.id in w.rides {
      ReadId(w, consumer.id);
    }
  }

  lemma WritesElsewhere(w: World, consumer: Consumer, input: Input, id: Id)
    requires (consumer.FanRecord? || consumer.TellDelete?) && id !in w.offers && !Fanning(consumer, id)
    ensures id !in StepConsumer(w, consumer, input).0.offers
  {
  }

  lemma OthersDoNotFan(c: Config, a: Action, id: Id)
    requires !a.Handle? && !Fanning(c.consumer, id)
    ensures !Fanning(Next(c, a).consumer, id)
  {
    hide StepTask, Admit;
  }

  lemma ReadId(w: World, id: Id)
    requires WorldOK(w) && id in w.rides
    ensures w.rides[id].id == id
  {
    assert RowOK(w, id);
  }

  lemma SettledStays(c: Config, a: Action, id: Id)
    requires ConfigOK(c) && Settled(c, id)
    ensures Settled(Next(c, a), id)
  {
    if a.Handle? {
      hide StepConsumer, WorldOK, TasksOK, ConsumerOK;
      ConsumerKeepsSettled(c.w, c.consumer, a.handled, id);
    } else {
      hide ConfigOK, Next, Fanning, SameTrip;
      NextOK(c, a);
      OffersElsewhere(c, a);
      OthersDoNotFan(c, a, id);
    }
  }

  /** Once the consumer has completed handle_ride_accepted for a ride, the ride's
      dispatched: set stays absent for ever, under every interleaving, redelivered or
      retried ride-requested messages and any order across topics. */
  lemma {:induction false} RetractedForEver(actions: seq<Action>, input: Input, more: seq<Action>)
    requires Exec(Start, actions).consumer.TellDelete?
    ensures var c := Exec(Start, actions);
            c.consumer.id !in Exec(Next(c, Handle(input)), more).w.offers
  {
    hide Exec, Next, ConfigOK;
    var c := Exec(Start, actions);
    RunOK(actions);
    DeletedIsSettled(c, input);
    NextOK(c, Handle(input));
    SettledForEver(Next(c, Handle(input)), more, c.consumer.id);
  }

  lemma DeletedIsSettled(c: Config, input: Input)
    requires ConfigOK(c) && c.consumer.TellDelete?
    ensures Settled(Next(c, Handle(input)), c.consumer.id)
  {
    assert RowOK(c.w, c.consumer.id);
  }

  lemma {:induction false} SettledForEver(c: Config, more: seq<Action>, id: Id)
    requires ConfigOK(c) && Settled(c, id)
    ensures Settled(Exec(c, more), id)
  {
    if more != [] {
      hide Next, ConfigOK, Settled;
      SettledForEver(c, more[..|more| - 1], id);
      RunLater(c, more[..|more| - 1]);
      SettledStays(Exec(c, more[..|more| - 1]), more[|more| - 1], id);
    }
  }
}

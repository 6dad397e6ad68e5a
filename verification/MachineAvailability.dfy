/** The two records of who is available, the column in Postgres and the set in Redis, under
    interleaving (repositories/driver.py:13-38): exactly which runs keep them in agreement, and
    exactly which keep the drivers of rides unavailable. */
module MachineAvailability {
  import opened Models
  import opened Worlds
  import opened Machine
  import opened MachineFrames
  import opened MachineSaves
  import Auth = MachineAuth
  import SerialRides

  /** A save of the driver's row is between its Postgres half and its Redis half. */
  predicate Pending(t: Task, d: Id) { t.DriverSync? && t.profile.userId == d }

  predicate NonePending(tasks: seq<Task>, d: Id) {
    forall i :: 0 <= i < |tasks| ==> !Pending(tasks[i], d)
  }

  /** The set has the driver exactly when the row says available. */
  predicate Mirrors(w: World, d: Id) {
    d in w.available <==> d in w.drivers && w.drivers[d].isAvailable
  }

  /** Both records agree on every driver whose row no save is in the middle of. */
  ghost predicate Agreeing(c: Config) {
    forall d :: NonePending(c.tasks, d) ==> Mirrors(c.w, d)
  }

  /** Task i is in the middle of a save, and no other task is, of the same driver. */
  predicate LastPending(c: Config, i: nat) {
    && i < |c.tasks| && c.tasks[i].DriverSync?
    && forall j :: 0 <= j < |c.tasks| && j != i ==> !Pending(c.tasks[j], c.tasks[i].profile.userId)
  }

  /** The last Redis half under way for a driver finds the stored row still with the flag that
      it writes; and if it is torn down instead, nothing was left to write. */
  predicate CleanEnd(c: Config, a: Action) {
    match a
    case Step(i, _) =>
      LastPending(c, i) ==>
        var p := c.tasks[i].profile;
        p.userId in c.w.drivers && c.w.drivers[p.userId].isAvailable == p.isAvailable
    case Abort(i) => LastPending(c, i) ==> Mirrors(c.w, c.tasks[i].profile.userId)
    case _ => true
  }

  // ---------- one step ----------

  /** A step that is no half of a save of a driver row. */
  lemma OtherStep(w: World, t: Task, input: Input)
    requires !t.DriverSave? && !t.DriverSync? && !t.AcceptWait?
    ensures SameDriverTables(w, StepTask(w, t, input).0) && !StepTask(w, t, input).1.DriverSync?
  {
    hide StepRequest, StepAccept, StepMark, StepLifecycle, StepDriver, StepRate, StepAccount, StepRetry,
      SameAccounts, SameRideTables, SameDriverTables;
    if IsRequest(t) {
      RequestFrame(w, t, input);
    } else if IsAccept(t) {
      AcceptLeaves(w, t);
      AcceptNoSync(w, t);
    } else if IsMark(t) {
      MarkFrame(w, t);
    } else if IsLifecycle(t) {
      LifecycleLeaves(w, t);
      LifecycleNoSync(w, t);
    } else if IsDriver(t) {
      DriverFrame(w, t, input);
      DriverGoesOn(w, t, input);
    } else if IsRate(t) {
      RateFrame(w, t);
      RateGoesOn(w, t);
    } else if IsAccount(t) {
      AccountFrame(w, t, input);
      AccountGoesOn(w, t, input);
    } else {
      RetryFrame(w, t, input);
    }
  }

  lemma AcceptNoSync(w: World, t: Task)
    requires IsAccept(t)
    ensures !StepAccept(w, t).1.DriverSync?
  {
    hide SaveMatch, PublishAccepted;
  }

  lemma LifecycleNoSync(w: World, t: Task)
    requires IsLifecycle(t)
    ensures !StepLifecycle(w, t).1.DriverSync?
  {
    hide SaveRide, PublishCompleted, PublishCancelled;
  }

  lemma SaveStep(w: World, t: Task, input: Input)
    requires t.DriverSave?
    ensures var (w', t') := StepTask(w, t, input);
            t' == DriverSync(t.profile, t.resume)
            && w'.available == w.available && w'.drivers == w.drivers[t.profile.userId := t.profile]
  {
    hide StepMark;
    MarkFrame(w, t);
  }

  lemma SyncStep(w: World, t: Task, input: Input)
    requires t.DriverSync?
    ensures var (w', t') := StepTask(w, t, input); var d := t.profile.userId;
            !t'.DriverSync? && w'.drivers == w.drivers
            && w'.available == if t.profile.isAvailable then w.available + {d} else w.available - {d}
  {
    hide StepMark;
    MarkFrame(w, t);
  }

  /** Both records after an action: the Postgres half of a save replaces exactly one row, by the
      row the task holds, the Redis half moves exactly that driver, and nothing else writes. */
  lemma NextWritesDriver(c: Config, a: Action)
    ensures var t := if a.Step? && a.task < |c.tasks| then c.tasks[a.task] else Done(Failed); var w' := Next(c, a).w;
            w'.drivers == (if t.DriverSave? then c.w.drivers[t.profile.userId := t.profile] else c.w.drivers)
            && w'.available == (if !t.DriverSync? then c.w.available
                                else if t.profile.isAvailable then c.w.available + {t.profile.userId}
                                else c.w.available - {t.profile.userId})
  {
    hide StepTask, StepConsumer, Admit, Critical;
    if a.Step? && a.task < |c.tasks| && !c.tasks[a.task].AcceptWait? {
      var t := c.tasks[a.task];
      if t.DriverSave? {
        SaveStep(c.w, t, a.input);
      } else if t.DriverSync? {
        SyncStep(c.w, t, a.input);
      } else {
        OtherStep(c.w, t, a.input);
      }
    } else if a.Handle? {
      ConsumerFrame(c.w, c.consumer, a.handled);
    }
  }

  // ---------- what each kind of action does to agreement ----------

  /** Nothing about availability changes, and no task starts or ends a save. */
  predicate Unrelated(c: Config, c': Config) {
    && SameDriverTables(c.w, c'.w)
    && (forall i :: 0 <= i < |c.tasks| && c.tasks[i].DriverSync? ==>
          i < |c'.tasks| && c'.tasks[i] == c.tasks[i])
    && (forall i :: 0 <= i < |c'.tasks| && c'.tasks[i].DriverSync? ==>
          i < |c.tasks| && c'.tasks[i] == c.tasks[i])
  }

  lemma UnrelatedAgrees(c: Config, c': Config)
    requires Unrelated(c, c')
    ensures Agreeing(c') <==> Agreeing(c)
  {
    forall d
      ensures NonePending(c'.tasks, d) == NonePending(c.tasks, d) && Mirrors(c'.w, d) == Mirrors(c.w, d)
    {
      SamePending(c, c', d);
    }
  }

  lemma SamePending(c: Config, c': Config, d: Id)
    requires Unrelated(c, c')
    ensures NonePending(c'.tasks, d) == NonePending(c.tasks, d) && Mirrors(c'.w, d) == Mirrors(c.w, d)
  {
  }

  lemma NonePendingBefore(tasks: seq<Task>, tasks': seq<Task>, i: nat, d: Id)
    requires i < |tasks| == |tasks'| && tasks' == tasks[i := tasks'[i]]
    requires NonePending(tasks', d) && !Pending(tasks[i], d)
    ensures NonePending(tasks, d)
  {
    forall j | 0 <= j < |tasks|
      ensures !Pending(tasks[j], d)
    {
      assert !Pending(tasks'[j], d);
    }
  }

  /** The Postgres half of a save of driver d: agreement on d is suspended. */
  lemma SavingAgrees(c: Config, c': Config, i: nat, p: Driver)
    requires i < |c.tasks| && c.tasks[i].DriverSave? && Agreeing(c)
    requires |c'.tasks| == |c.tasks| && c'.tasks == c.tasks[i := c'.tasks[i]] && Pending(c'.tasks[i], p.userId)
    requires c'.w.available == c.w.available && c'.w.drivers == c.w.drivers[p.userId := p]
    ensures Agreeing(c')
  {
    forall d | NonePending(c'.tasks, d)
      ensures Mirrors(c'.w, d)
    {
      NonePendingBefore(c.tasks, c'.tasks, i, d);
    }
  }

  /** Task i stops being in the middle of a save of driver d; only d's membership may change. */
  lemma EndingAgrees(c: Config, c': Config, i: nat, d: Id)
    requires i < |c.tasks| && Pending(c.tasks[i], d) && Agreeing(c)
    requires |c'.tasks| == |c.tasks| && c'.tasks == c.tasks[i := c'.tasks[i]] && !c'.tasks[i].DriverSync?
    requires c'.w.drivers == c.w.drivers
    requires forall x :: x != d ==> (x in c'.w.available <==> x in c.w.available)
    ensures Agreeing(c') <==> (LastPending(c, i) ==> Mirrors(c'.w, d))
  {
    forall x | x != d && NonePending(c'.tasks, x)
      ensures Mirrors(c'.w, x)
    {
      NonePendingBefore(c.tasks, c'.tasks, i, x);
    }
    if LastPending(c, i) {
      assert NonePending(c'.tasks, d);
    } else {
      var j :| 0 <= j < |c.tasks| && j != i && Pending(c.tasks[j], d);
      assert Pending(c'.tasks[j], d);
    }
  }

  lemma StepAgrees(c: Config, i: nat, input: Input)
    requires Auth.ConfigOK(c) && Agreeing(c)
    ensures Agreeing(Next(c, Step(i, input))) <==> CleanEnd(c, Step(i, input))
  {
    hide StepTask, Agreeing, Critical, Mirrors, Auth.WorldOK, SameDriverTables;
    var c' := Next(c, Step(i, input));
    if i >= |c.tasks| {
    } else if c.tasks[i].AcceptWait? {
      NoCall(c.w);
      UnrelatedAgrees(c, c');
    } else if c.tasks[i].DriverSave? {
      SaveStep(c.w, c.tasks[i], input);
      SavingAgrees(c, c', i, c.tasks[i].profile);
    } else if c.tasks[i].DriverSync? {
      SyncAgrees(c, i, input);
    } else {
      OtherStep(c.w, c.tasks[i], input);
      UnrelatedAgrees(c, c');
    }
  }

  lemma SyncAgrees(c: Config, i: nat, input: Input)
    requires Auth.ConfigOK(c) && Agreeing(c) && i < |c.tasks| && c.tasks[i].DriverSync?
    ensures Agreeing(Next(c, Step(i, input))) <==> CleanEnd(c, Step(i, input))
  {
    hide StepTask, Agreeing, Critical, Auth.WorldOK;
    var p := c.tasks[i].profile;
    assert Auth.TaskOK(c.w, c.tasks[i]);
    SyncStep(c.w, c.tasks[i], input);
    EndingAgrees(c, Next(c, Step(i, input)), i, p.userId);
  }

  lemma AbortAgrees(c: Config, i: nat)
    requires Agreeing(c)
    ensures Agreeing(Next(c, Abort(i))) <==> CleanEnd(c, Abort(i))
  {
    hide Agreeing, Critical;
    if i < |c.tasks| {
      if c.tasks[i].DriverSync? {
        EndingAgrees(c, Next(c, Abort(i)), i, c.tasks[i].profile.userId);
      } else {
        UnrelatedAgrees(c, Next(c, Abort(i)));
      }
    }
  }

  lemma AdmittedNotPending(w: World, call: Call)
    ensures Admit(w, call).Some? ==> !Admit(w, call).value.DriverSync?
  {
    hide Authenticated;
  }

  /** One action keeps the records in agreement exactly when it ends no save uncleanly. */
  lemma AgreeingExactlyWhen(c: Config, a: Action)
    requires Auth.ConfigOK(c) && Agreeing(c)
    ensures Agreeing(Next(c, a)) <==> CleanEnd(c, a)
  {
    if a.Step? {
      StepAgrees(c, a.task, a.input);
    } else if a.Abort? {
      AbortAgrees(c, a.task);
    } else {
      hide StepConsumer, Agreeing, Admit, Auth.ConfigOK;
      if a.Handle? {
        ConsumerFrame(c.w, c.consumer, a.handled);
      } else if a.Spawn? {
        AdmittedNotPending(c.w, a.call);
      }
      UnrelatedAgrees(c, Next(c, a));
    }
  }

  // ---------- every run ----------

  /** The records agree after a run and after each shorter one. */
  ghost predicate AgreesThroughout(actions: seq<Action>) {
    && Agreeing(Exec(Start, actions))
    && (actions != [] ==> AgreesThroughout(actions[..|actions| - 1]))
  }

  ghost predicate CleanThroughout(actions: seq<Action>) {
    actions != [] ==>
      CleanEnd(Exec(Start, actions[..|actions| - 1]), actions[|actions| - 1])
      && CleanThroughout(actions[..|actions| - 1])
  }

  /** Under any interleaving, Postgres and Redis agree all through a run, on every driver that
      no save is in the middle of, exactly when each last Redis half finds the stored row with
      the flag that it writes. */
  lemma {:induction false} AgreementExactlyWhen(actions: seq<Action>)
    ensures AgreesThroughout(actions) <==> CleanThroughout(actions)
  {
    hide Next, Agreeing, CleanEnd, Auth.ConfigOK;
    if actions == [] {
      NobodyAvailable();
    } else {
      var init := actions[..|actions| - 1];
      AgreementExactlyWhen(init);
      if AgreesThroughout(init) {
        Auth.RunOK(init);
        AgreeingExactlyWhen(Exec(Start, init), actions[|actions| - 1]);
      }
    }
  }

  lemma NobodyAvailable()
    ensures Agreeing(Start)
  {
  }

  // ---------- a driver holding a ride is unavailable ----------

  /** The driver has a row that says no. */
  predicate SaysNo(w: World, d: Id) { d in w.drivers && !w.drivers[d].isAvailable }

  /** Whoever holds a MATCHED or IN_PROGRESS ride is unavailable. */
  ghost predicate HoldersUnavailable(w: World) {
    forall d, ride :: Holds(w.rides, d, ride) ==> SaysNo(w, d)
  }

  /** A ride is saved for a driver only while the row says no, and a row that says yes only
      while its driver holds no ride. */
  predicate BusySaysNo(c: Config, a: Action) {
    && (SavedBy(c, a).Some? && Occupies(SavedBy(c, a).value) ==> SaysNo(c.w, SavedBy(c, a).value.driver.value))
    && (a.Step? && a.task < |c.tasks| && c.tasks[a.task].DriverSave? && c.tasks[a.task].profile.isAvailable ==>
          forall ride :: ride in c.w.rides ==> !Holds(c.w.rides, c.tasks[a.task].profile.userId, ride))
  }

  lemma RideSaveKeepsExactlyWhen(w: World, w': World, r: Ride)
    requires HoldersUnavailable(w) && w'.drivers == w.drivers && w'.rides == w.rides[r.id := r]
    ensures HoldersUnavailable(w') <==> (Occupies(r) ==> SaysNo(w, r.driver.value))
  {
    if Occupies(r) {
      assert Holds(w'.rides, r.driver.value, r.id);
    }
    forall d, ride | Holds(w'.rides, d, ride) && ride != r.id
      ensures SaysNo(w', d)
    {
      assert Holds(w.rides, d, ride);
    }
  }

  lemma DriverSaveKeepsExactlyWhen(w: World, w': World, p: Driver)
    requires HoldersUnavailable(w) && w'.rides == w.rides && w'.drivers == w.drivers[p.userId := p]
    ensures HoldersUnavailable(w') <==>
            (p.isAvailable ==> forall ride :: ride in w.rides ==> !Holds(w.rides, p.userId, ride))
  {
    if p.isAvailable {
      forall ride | ride in w.rides && Holds(w.rides, p.userId, ride)
        ensures !HoldersUnavailable(w')
      {
        assert Holds(w'.rides, p.userId, ride) && !SaysNo(w', p.userId);
      }
    }
    forall d, ride | Holds(w'.rides, d, ride) && (d != p.userId || !p.isAvailable)
      ensures SaysNo(w', d)
    {
      assert Holds(w.rides, d, ride);
    }
  }

  lemma HalvesSaveNoRide(w: World, t: Task, input: Input)
    requires t.DriverSave?
    ensures SavedRow(w, t, input).None?
  {
  }

  /** One action keeps the holders of rides unavailable exactly when its save says so. */
  lemma UnavailableExactlyWhen(c: Config, a: Action)
    requires HoldersUnavailable(c.w)
    ensures HoldersUnavailable(Next(c, a).w) <==> BusySaysNo(c, a)
  {
    hide Next, SavedRow, HoldersUnavailable, Occupies, SaysNo;
    NextWrites(c, a);
    NextWritesDriver(c, a);
    if a.Step? && a.task < |c.tasks| && c.tasks[a.task].DriverSave? {
      HalvesSaveNoRide(c.w, c.tasks[a.task], a.input);
      DriverSaveKeepsExactlyWhen(c.w, Next(c, a).w, c.tasks[a.task].profile);
    } else if SavedBy(c, a).Some? {
      RideSaveKeepsExactlyWhen(c.w, Next(c, a).w, SavedBy(c, a).value);
    } else {
      SameHolders(c.w, Next(c, a).w);
    }
  }

  lemma SameHolders(w: World, w': World)
    requires w'.rides == w.rides && w'.drivers == w.drivers
    ensures HoldersUnavailable(w') <==> HoldersUnavailable(w)
  {
    forall d
      ensures SaysNo(w', d) == SaysNo(w, d)
    {
    }
  }

  ghost predicate UnavailableThroughout(actions: seq<Action>) {
    && HoldersUnavailable(Exec(Start, actions).w)
    && (actions != [] ==> UnavailableThroughout(actions[..|actions| - 1]))
  }

  ghost predicate BusyThroughout(actions: seq<Action>) {
    actions != [] ==>
      BusySaysNo(Exec(Start, actions[..|actions| - 1]), actions[|actions| - 1])
      && BusyThroughout(actions[..|actions| - 1])
  }

  /** Under any interleaving, every driver holding a MATCHED or IN_PROGRESS ride is unavailable
      all through a run exactly when such rides are saved only for drivers whose row says no,
      and rows that say yes only for drivers who hold none. */
  lemma {:induction false} HoldersUnavailableExactlyWhen(actions: seq<Action>)
    ensures UnavailableThroughout(actions) <==> BusyThroughout(actions)
  {
    hide Next, BusySaysNo, HoldersUnavailable;
    if actions == [] {
      NoHolders();
    } else {
      var init := actions[..|actions| - 1];
      HoldersUnavailableExactlyWhen(init);
      if UnavailableThroughout(init) {
        UnavailableExactlyWhen(Exec(Start, init), actions[|actions| - 1]);
      }
    }
  }

  lemma NoHolders()
    ensures HoldersUnavailable(Start.w)
  {
  }

  // ---------- driver exclusivity ----------

  ghost predicate ExclusiveThroughout(actions: seq<Action>) {
    var w := Exec(Start, actions).w;
    && SerialRides.Exclusive(w.rides, w.drivers)
    && (actions != [] ==> ExclusiveThroughout(actions[..|actions| - 1]))
  }

  /** So driver exclusivity, which serial runs keep exactly when disciplined, is kept by an
      interleaving exactly when every save of a held ride finds its driver holding no other and
      marked unavailable, and nobody who holds a ride is marked available. */
  lemma {:induction false} ExclusivityUnderInterleaving(actions: seq<Action>)
    ensures ExclusiveThroughout(actions) <==> FreeDriversThroughout(actions) && BusyThroughout(actions)
  {
    hide Exec;
    OneHeldPerDriverExactlyWhen(actions);
    HoldersUnavailableExactlyWhen(actions);
    BothParts(actions);
  }

  lemma {:induction false} BothParts(actions: seq<Action>)
    ensures ExclusiveThroughout(actions) <==> OneHeldThroughout(actions) && UnavailableThroughout(actions)
  {
    hide Exec;
    if actions != [] {
      BothParts(actions[..|actions| - 1]);
    }
  }

  // ---------- a condition callers can keep to ----------

  /** At most one task per driver is in the middle of a save. */
  predicate Separate(c: Config) {
    forall i, j :: 0 <= i < j < |c.tasks| && c.tasks[i].DriverSync? && c.tasks[j].DriverSync? ==>
      c.tasks[i].profile.userId != c.tasks[j].profile.userId
  }

  /** No save is torn down in the middle. */
  predicate Spares(c: Config, a: Action) {
    a.Abort? && a.task < |c.tasks| ==> !c.tasks[a.task].DriverSync?
  }

  predicate SeparateThroughout(actions: seq<Action>) {
    && Separate(Exec(Start, actions))
    && (actions != [] ==>
          Spares(Exec(Start, actions[..|actions| - 1]), actions[|actions| - 1])
          && SeparateThroughout(actions[..|actions| - 1]))
  }

  /** Whoever is in the middle of a save still has its flag in the stored row. */
  predicate FlagsCurrent(c: Config) {
    forall i :: 0 <= i < |c.tasks| && c.tasks[i].DriverSync? ==>
      var p := c.tasks[i].profile;
      p.userId in c.w.drivers && c.w.drivers[p.userId].isAvailable == p.isAvailable
  }

  lemma CurrentIsClean(c: Config, a: Action)
    requires FlagsCurrent(c) && Spares(c, a)
    ensures CleanEnd(c, a)
  {
  }

  lemma FlagsStay(c: Config, a: Action)
    requires FlagsCurrent(c) && Spares(c, a) && Separate(Next(c, a))
    ensures FlagsCurrent(Next(c, a))
  {
    hide StepTask, StepConsumer, Admit, Critical;
    if a.Step? && a.task < |c.tasks| && !c.tasks[a.task].AcceptWait? {
      FlagsStayOverStep(c, a.task, a.input);
    } else if a.Handle? {
      ConsumerFrame(c.w, c.consumer, a.handled);
    } else if a.Spawn? {
      AdmittedNotPending(c.w, a.call);
    }
  }

  lemma FlagsStayOverStep(c: Config, i: nat, input: Input)
    requires i < |c.tasks| && !c.tasks[i].AcceptWait?
    requires FlagsCurrent(c) && Separate(Next(c, Step(i, input)))
    ensures FlagsCurrent(Next(c, Step(i, input)))
  {
    hide StepTask, Critical;
    var c' := Next(c, Step(i, input));
    if c.tasks[i].DriverSave? {
      SaveStep(c.w, c.tasks[i], input);
      forall j | 0 <= j < |c'.tasks| && j != i && c'.tasks[j].DriverSync?
        ensures c'.tasks[j].profile.userId != c.tasks[i].profile.userId
      {
        assert c'.tasks[i].DriverSync?;
      }
    } else if c.tasks[i].DriverSync? {
      SyncStep(c.w, c.tasks[i], input);
    } else {
      OtherStep(c.w, c.tasks[i], input);
    }
  }

  /** If never two tasks are in the middle of a save of the same driver, and none is torn down
      there, the records agree all through the run. */
  lemma {:induction false} SeparateSavesAgree(actions: seq<Action>)
    requires SeparateThroughout(actions)
    ensures AgreesThroughout(actions) && FlagsCurrent(Exec(Start, actions))
  {
    hide Next, Agreeing, FlagsCurrent, Separate, Spares, CleanEnd, Auth.ConfigOK;
    if actions == [] {
      NobodyAvailable();
      NobodySaves();
    } else {
      var init, a := actions[..|actions| - 1], actions[|actions| - 1];
      SeparateSavesAgree(init);
      Auth.RunOK(init);
      FlagsStay(Exec(Start, init), a);
      CurrentIsClean(Exec(Start, init), a);
      AgreeingExactlyWhen(Exec(Start, init), a);
    }
  }

  lemma NobodySaves()
    ensures FlagsCurrent(Start)
  {
  }
}

/** User rows under interleaving (services/rating.py:75-80, routers/driver.py:31-38): they are
    read, changed and saved without a lock, by ratings and by driver registration. Exactly when
    a registered driver's role stays, and exactly which runs keep the rating counters. */
module MachineUsers {
  import opened Models
  import opened Worlds
  import opened SerialRatings
  import opened Machine
  import opened MachineFrames
  import Auth = MachineAuth
  import Serial

  // ---------- the user row a step saves ----------

  /** The user row the next step of the task saves, if it saves one. */
  function SavedUser(w: World, t: Task, input: Input): Option<User> {
    match t
    case RateUserSave(account) => Some(account)
    case UpgradeUser(account) => Some(account)
    case SignUpSave(username) =>
      if input.uuid in w.users || UsernameTaken(w, username) then None
      else Some(User(input.uuid, username, RIDER, None, 0))
    case _ => None
  }

  function WithUser(users: map<Id, User>, u: Option<User>): map<Id, User> {
    if u.Some? then users[u.value.id := u.value] else users
  }

  lemma SavingTasks(w: World, t: Task, input: Input)
    ensures t.RateUserSave? || t.UpgradeUser? ==> SavedUser(w, t, input) == Some(t.account)
    ensures SavedUser(w, t, input).Some? ==> t.RateUserSave? || t.UpgradeUser? || t.SignUpSave?
  {
    hide UsernameTaken;
  }

  lemma SignUpWrites(w: World, t: Task, input: Input)
    requires t.SignUpSave?
    ensures StepAccount(w, t, input).0.users == WithUser(w.users, SavedUser(w, t, input))
  {
    hide UsernameTaken;
  }

  lemma StepWritesUser(w: World, t: Task, input: Input)
    requires !t.AcceptWait?
    ensures StepTask(w, t, input).0.users == WithUser(w.users, SavedUser(w, t, input))
  {
    hide SavedUser, StepRequest, StepAccept, StepMark, StepLifecycle, StepDriver, StepRate, StepAccount, StepRetry,
      SameRideTables, SameDriverTables, SameRatings;
    SavingTasks(w, t, input);
    if IsRequest(t) {
      RequestFrame(w, t, input);
    } else if IsAccept(t) {
      AcceptLeaves(w, t);
    } else if IsMark(t) {
      MarkFrame(w, t);
    } else if IsLifecycle(t) {
      LifecycleLeaves(w, t);
    } else if IsDriver(t) {
      DriverFrame(w, t, input);
    } else if IsRate(t) {
      RateFrame(w, t);
    } else if t.SignUpSave? {
      SignUpWrites(w, t, input);
    } else if IsAccount(t) {
      AccountFrame(w, t, input);
    } else {
      RetryFrame(w, t, input);
    }
  }

  /** The user row an action saves. */
  function SavedBy(c: Config, a: Action): Option<User> {
    if a.Step? && a.task < |c.tasks| then SavedUser(c.w, c.tasks[a.task], a.input) else None
  }

  lemma NextWritesUser(c: Config, a: Action)
    ensures Next(c, a).w.users == WithUser(c.w.users, SavedBy(c, a))
  {
    hide StepTask, StepConsumer, SavedUser, Admit, Critical;
    match a
    case Step(i, input) =>
      if i < |c.tasks| {
        SavingTasks(c.w, c.tasks[i], input);
        if !c.tasks[i].AcceptWait? {
          StepWritesUser(c.w, c.tasks[i], input);
        }
      }
    case Handle(input) => ConsumerFrame(c.w, c.consumer, input);
    case _ =>
  }

  // ---------- the role of a registered driver ----------

  /** The task is about to save a rating into a row of u read before u became a driver. */
  predicate WouldDemote(t: Task, u: Id) {
    t.RateUserSave? && t.account.id == u && t.account.role == RIDER
  }

  predicate Upgraded(c: Config, u: Id) {
    u in c.w.users && c.w.users[u].role == DRIVER
    && forall i :: 0 <= i < |c.tasks| ==> !WouldDemote(c.tasks[i], u)
  }

  /** Only a step that reads the row now can lead to such a save. */
  lemma DemotesFromRow(w: World, t: Task, input: Input, u: Id)
    requires Auth.WorldOK(w) && !t.AcceptWait? && WouldDemote(StepTask(w, t, input).1, u)
    ensures u in w.users && w.users[u].role == RIDER
  {
    hide StepTask, Auth.WorldOK;
    OnlyRateUserReads(w, t, input);
    Auth.StoredAccount(w, t.to);
  }

  /** The row that rate is about to save was read by the step before. */
  lemma OnlyRateUserReads(w: World, t: Task, input: Input)
    requires !t.AcceptWait? && StepTask(w, t, input).1.RateUserSave?
    ensures t.RateUser? && t.to in w.users
    ensures StepTask(w, t, input).1 == RateUserSave(Serial.RatedUser(w.users[t.to], t.score))
  {
    hide StepRequest, StepAccept, StepMark, StepLifecycle, StepDriver, StepAccount, StepRetry, Serial.RatedUser;
    if !IsRate(t) {
      hide StepRate;
      NoRating(w, t, input);
    } else {
      RateGoesOn(w, t);
    }
  }

  lemma NoRating(w: World, t: Task, input: Input)
    requires !IsRate(t) && !t.AcceptWait?
    ensures !StepTask(w, t, input).1.RateUserSave?
  {
    hide StepRequest, StepAccept, StepMark, StepLifecycle, StepDriver, StepRate, StepAccount, StepRetry,
      SameAccounts, SameDriverTables;
    if IsRequest(t) {
      RequestFrame(w, t, input);
    } else if IsAccept(t) || IsMark(t) || IsLifecycle(t) {
      NoRatingHere(w, t);
    } else if IsDriver(t) {
      DriverGoesOn(w, t, input);
    } else if IsAccount(t) {
      AccountGoesOn(w, t, input);
    } else {
      RetryFrame(w, t, input);
    }
  }

  lemma NoRatingHere(w: World, t: Task)
    ensures IsAccept(t) ==> !StepAccept(w, t).1.RateUserSave?
    ensures IsMark(t) ==> !StepMark(w, t).1.RateUserSave?
    ensures IsLifecycle(t) ==> !StepLifecycle(w, t).1.RateUserSave?
  {
    hide SaveMatch, PublishAccepted, SaveDriverRow, SyncAvailable, Resumed, SaveRide, PublishCompleted,
      PublishCancelled;
  }

  lemma AdmittedSavesNoUser(w: World, call: Call)
    ensures Admit(w, call).Some? ==> !Admit(w, call).value.RateUserSave?
  {
    hide Authenticated;
  }

  lemma UpgradedStays(c: Config, a: Action, u: Id)
    requires Auth.ConfigOK(c) && Upgraded(c, u)
    ensures Upgraded(Next(c, a), u)
  {
    hide StepTask, StepConsumer, Admit, Critical, Auth.WorldOK, SavedUser;
    NextWritesUser(c, a);
    if SavedBy(c, a).Some? {
      SavingTasks(c.w, c.tasks[a.task], a.input);
      if SavedBy(c, a).value.id == u {
        SavesDriverRole(c, a, u);
      }
    }
    forall i | 0 <= i < |Next(c, a).tasks|
      ensures !WouldDemote(Next(c, a).tasks[i], u)
    {
      if a.Spawn? {
        AdmittedSavesNoUser(c.w, a.call);
      } else if a.Step? && a.task == i && !c.tasks[i].AcceptWait? {
        if WouldDemote(Next(c, a).tasks[i], u) {
          DemotesFromRow(c.w, c.tasks[i], a.input, u);
        }
      }
    }
  }

  lemma SavesDriverRole(c: Config, a: Action, u: Id)
    requires Auth.ConfigOK(c) && Upgraded(c, u) && SavedBy(c, a).Some? && SavedBy(c, a).value.id == u
    ensures SavedBy(c, a).value.role == DRIVER
  {
    hide Auth.WorldOK, UsernameTaken;
    assert Auth.TaskOK(c.w, c.tasks[a.task]) && !WouldDemote(c.tasks[a.task], u);
  }

  lemma {:induction false} UpgradedForEver(c: Config, more: seq<Action>, u: Id)
    requires Auth.ConfigOK(c) && Upgraded(c, u)
    ensures Upgraded(Exec(c, more), u)
  {
    if more != [] {
      hide Next, Auth.ConfigOK, Upgraded;
      UpgradedForEver(c, more[..|more| - 1], u);
      Auth.RunGrows(c, more[..|more| - 1]);
      UpgradedStays(Exec(c, more[..|more| - 1]), more[|more| - 1], u);
    }
  }

  /** When registration as a driver lasts: the stored role stays DRIVER in every continuation if
      and only if no rating is about to save a row of the user read before the upgrade. */
  lemma UpgradeKeptExactlyWhen(actions: seq<Action>, u: Id)
    requires u in Exec(Start, actions).w.users && Exec(Start, actions).w.users[u].role == DRIVER
    ensures var c := Exec(Start, actions);
            (forall more :: u in Exec(c, more).w.users && Exec(c, more).w.users[u].role == DRIVER)
            <==> (forall i :: 0 <= i < |c.tasks| ==> !WouldDemote(c.tasks[i], u))
  {
    hide Exec, Auth.ConfigOK, WouldDemote;
    var c := Exec(Start, actions);
    Auth.RunOK(actions);
    if forall i :: 0 <= i < |c.tasks| ==> !WouldDemote(c.tasks[i], u) {
      forall more
        ensures u in Exec(c, more).w.users && Exec(c, more).w.users[u].role == DRIVER
      {
        UpgradedForEver(c, more, u);
      }
    } else {
      var i :| 0 <= i < |c.tasks| && WouldDemote(c.tasks[i], u);
      Demotes(c, i, u);
      assert Exec(c, [Step(i, Input([], 0, []))]).w.users[u].role == RIDER;
    }
  }

  lemma Demotes(c: Config, i: nat, u: Id)
    requires i < |c.tasks| && WouldDemote(c.tasks[i], u)
    ensures var w' := Exec(c, [Step(i, Input([], 0, []))]).w; u in w'.users && w'.users[u].role == RIDER
  {
    hide Next;
    OneAction(c, Step(i, Input([], 0, [])));
    NextWritesUser(c, Step(i, Input([], 0, [])));
  }

  // ---------- the rating counters of users ----------

  /** The user whose row the task has still to bring up to date with a rating inserted. */
  function Owed(t: Task): Option<Id> {
    match t
    case RateDriver(to, _) => Some(to)
    case RateUser(to, _) => Some(to)
    case DriverSave(_, k) => if k.ToRateUser? then Some(k.to) else None
    case DriverSync(_, k) => if k.ToRateUser? then Some(k.to) else None
    case RateUserSave(account) => Some(account.id)
    case _ => None
  }

  function Owes(t: Task, u: Id): nat { if Owed(t) == Some(u) then 1 else 0 }

  /** How many ratings of u are inserted but not yet in a saved row. */
  function Due(tasks: seq<Task>, u: Id): nat {
    if tasks == [] then 0 else Due(tasks[..|tasks| - 1], u) + Owes(tasks[|tasks| - 1], u)
  }

  lemma {:induction false} DueUpdate(tasks: seq<Task>, i: nat, t: Task, u: Id)
    requires i < |tasks|
    ensures Due(tasks[i := t], u) == Due(tasks, u) - Owes(tasks[i], u) + Owes(t, u)
  {
    hide Owes;
    var n := |tasks| - 1;
    if i == n {
      assert tasks[i := t][..n] == tasks[..n];
    } else {
      assert tasks[i := t][..n] == tasks[..n][i := t];
      DueUpdate(tasks[..n], i, t, u);
    }
  }

  lemma DueAppend(tasks: seq<Task>, t: Task, u: Id)
    ensures Due(tasks + [t], u) == Due(tasks, u) + Owes(t, u)
  {
    hide Owes;
    assert (tasks + [t])[..|tasks|] == tasks;
  }

  lemma {:induction false} NothingDue(tasks: seq<Task>, u: Id)
    requires forall i :: 0 <= i < |tasks| ==> Owed(tasks[i]) != Some(u)
    ensures Due(tasks, u) == 0
  {
    if tasks != [] {
      hide Owed;
      NothingDue(tasks[..|tasks| - 1], u);
    }
  }

  /** The stored counter; that of nobody is zero. */
  function Counter(users: map<Id, User>, u: Id): nat {
    if u in users then users[u].ratingCount else 0
  }

  /** The counter of u and the ratings still to be counted make up the ratings in the table. */
  predicate Counted(c: Config, u: Id) {
    Counter(c.w.users, u) + Due(c.tasks, u) == CountTo(c.w.ratings, u)
  }

  ghost predicate AllCounted(c: Config) {
    forall u :: Counted(c, u)
  }

  /** The save brings the stored counter to what it should be; no rating is dropped. */
  predicate FreshSave(c: Config, a: Action) {
    match a
    case Step(i, _) =>
      i < |c.tasks| ==>
        var t := c.tasks[i];
        (t.RateUserSave? ==> t.account.ratingCount == Counter(c.w.users, t.account.id) + 1)
        && (t.UpgradeUser? ==> t.account.ratingCount == Counter(c.w.users, t.account.id))
        && (t.RateUser? ==> t.to in c.w.users)
    case Abort(i) => i < |c.tasks| ==> Owed(c.tasks[i]).None?
    case _ => true
  }

  // ---------- what a step owes and inserts ----------

  /** The user a rating of whom the step inserts. */
  function Inserted(w: World, t: Task): Option<Id> {
    if t.RateInsert? && !HasRated(w.ratings, t.ride, t.from) then Some(t.to) else None
  }

  lemma CountAppend(ratings: seq<Rating>, r: Rating, u: Id)
    ensures CountTo(ratings + [r], u) == CountTo(ratings, u) + if r.toUser == u then 1 else 0
  {
    assert (ratings + [r])[..|ratings|] == ratings;
  }

  lemma StepInserts(w: World, t: Task, input: Input, u: Id)
    requires !t.AcceptWait?
    ensures CountTo(StepTask(w, t, input).0.ratings, u) ==
            CountTo(w.ratings, u) + if Inserted(w, t) == Some(u) then 1 else 0
  {
    hide CountTo, StepRequest, StepAccept, StepMark, StepLifecycle, StepDriver, StepRate, StepAccount, StepRetry,
      SameAccounts, SameDriverTables, SameRideTables;
    if IsRequest(t) {
      RequestFrame(w, t, input);
    } else if IsAccept(t) {
      AcceptLeaves(w, t);
    } else if IsMark(t) {
      MarkFrame(w, t);
    } else if IsLifecycle(t) {
      LifecycleLeaves(w, t);
    } else if IsDriver(t) {
      DriverFrame(w, t, input);
    } else if t.RateInsert? {
      InsertCounts(w, t, u);
    } else if IsRate(t) {
      RateFrame(w, t);
    } else if IsAccount(t) {
      AccountFrame(w, t, input);
    } else {
      RetryFrame(w, t, input);
    }
  }

  lemma InsertCounts(w: World, t: Task, u: Id)
    requires t.RateInsert?
    ensures CountTo(StepRate(w, t).0.ratings, u) ==
            CountTo(w.ratings, u) + if Inserted(w, t) == Some(u) then 1 else 0
  {
    hide CountTo, HasRated, AddRating, SameAccounts, SameRideTables, SameDriverTables;
    AddRatingFrame(w, Rating(t.ride, t.from, t.to, t.score));
    CountAppend(w.ratings, Rating(t.ride, t.from, t.to, t.score), u);
  }

  /** What a step settles: nothing, unless it saves the row, or finds no row to save. */
  lemma StepOwes(w: World, t: Task, input: Input)
    requires Auth.WorldOK(w) && Auth.TaskOK(w, t) && !t.AcceptWait?
    ensures var t' := StepTask(w, t, input).1;
            Owed(t') == if t.RateUserSave? || (t.RateUser? && t.to !in w.users) then None
                        else if t.RateInsert? then Inserted(w, t)
                        else Owed(t)
  {
    hide Owed, StepRequest, StepAccept, StepMark, StepLifecycle, StepDriver, StepRate, StepAccount, StepRetry,
      SameAccounts, SameDriverTables, SameRideTables, Auth.WorldOK, Auth.TaskOK, HasRated;
    OthersOweNothing(t);
    if IsRequest(t) {
      RequestFrame(w, t, input);
    } else if IsAccept(t) {
      AcceptOwes(w, t);
    } else if IsMark(t) {
      MarkOwes(w, t);
    } else if IsLifecycle(t) {
      LifecycleOwes(w, t);
    } else if IsDriver(t) {
      DriverGoesOn(w, t, input);
    } else if IsRate(t) {
      RateOwes(w, t);
    } else if IsAccount(t) {
      AccountGoesOn(w, t, input);
    } else {
      RetryFrame(w, t, input);
    }
    OthersOweNothing(StepTask(w, t, input).1);
  }

  lemma OthersOweNothing(t: Task)
    ensures Accounting(t) || Placing(t) || t.MarkRead? ==> Owed(t).None?
    ensures !IsMark(t) && !IsRate(t) ==> Owed(t).None?
  {
  }

  lemma AcceptOwes(w: World, t: Task)
    requires IsAccept(t)
    ensures Owed(StepAccept(w, t).1).None?
  {
    hide SaveMatch, PublishAccepted;
  }

  lemma LifecycleOwes(w: World, t: Task)
    requires IsLifecycle(t)
    ensures Owed(StepLifecycle(w, t).1).None?
  {
    hide SaveRide, PublishCompleted, PublishCancelled;
  }

  lemma MarkOwes(w: World, t: Task)
    requires IsMark(t) && Auth.TaskOK(w, t)
    ensures Owed(StepMark(w, t).1) == Owed(t)
  {
    hide SaveDriverRow, SyncAvailable, Resumed, Auth.AccountOK, Auth.DriverKnown;
  }

  lemma RateOwes(w: World, t: Task)
    requires IsRate(t) && Auth.WorldOK(w)
    ensures Owed(StepRate(w, t).1) == if t.RateUserSave? || (t.RateUser? && t.to !in w.users) then None
                                      else if t.RateInsert? then Inserted(w, t)
                                      else Owed(t)
  {
    hide HasRated, Serial.Ratee, Serial.RefusedRatee, Serial.RatedDriver, AddRating, SaveUser, Auth.WorldOK;
    if t.RateUser? && t.to in w.users {
      Auth.StoredAccount(w, t.to);
    }
  }

  // ---------- one action ----------

  /** Where the counter of u goes in one step. */
  lemma StepCounter(w: World, t: Task, input: Input, u: Id)
    requires !t.AcceptWait?
    ensures Counter(StepTask(w, t, input).0.users, u) ==
            if (t.RateUserSave? || t.UpgradeUser?) && t.account.id == u then t.account.ratingCount
            else Counter(w.users, u)
  {
    hide StepTask, UsernameTaken;
    StepWritesUser(w, t, input);
  }

  /** The balance of u after a step of task i. */
  lemma StepBalance(c: Config, i: nat, input: Input, u: Id)
    requires Auth.ConfigOK(c) && i < |c.tasks| && !c.tasks[i].AcceptWait? && Counted(c, u)
    ensures var t, users := c.tasks[i], c.w.users;
            Counted(Next(c, Step(i, input)), u) <==>
            && ((t.RateUserSave? && t.account.id == u) ==> t.account.ratingCount == Counter(users, u) + 1)
            && ((t.UpgradeUser? && t.account.id == u) ==> t.account.ratingCount == Counter(users, u))
            && ((t.RateUser? && t.to == u) ==> u in users)
  {
    hide StepTask, Critical, Due, CountTo, Counter, Auth.WorldOK, Auth.TaskOK, Inserted;
    var t := c.tasks[i];
    var (w', t') := StepTask(c.w, t, input);
    assert Auth.TaskOK(c.w, t);
    DueUpdate(c.tasks, i, t', u);
    StepCounter(c.w, t, input, u);
    StepInserts(c.w, t, input, u);
    StepOwes(c.w, t, input);
    InsertsOnly(c.w, t);
  }

  lemma InsertsOnly(w: World, t: Task)
    ensures Inserted(w, t).Some? ==> t.RateInsert?
    ensures t.RateInsert? ==> Owed(t).None?
  {
    hide HasRated;
  }

  lemma StepCountsExactlyWhen(c: Config, i: nat, input: Input)
    requires Auth.ConfigOK(c) && AllCounted(c)
    ensures AllCounted(Next(c, Step(i, input))) <==> FreshSave(c, Step(i, input))
  {
    hide Next, Counted, Auth.ConfigOK;
    if i < |c.tasks| {
      if c.tasks[i].AcceptWait? {
        WaiterBalance(c, i, input);
      } else {
        forall u
          ensures var t, users := c.tasks[i], c.w.users;
                  Counted(Next(c, Step(i, input)), u) <==>
                  && ((t.RateUserSave? && t.account.id == u) ==> t.account.ratingCount == Counter(users, u) + 1)
                  && ((t.UpgradeUser? && t.account.id == u) ==> t.account.ratingCount == Counter(users, u))
                  && ((t.RateUser? && t.to == u) ==> u in users)
        {
          assert Counted(c, u);
          StepBalance(c, i, input, u);
        }
      }
    } else {
      NoSuchTask(c, i, input);
    }
  }

  lemma NoSuchTask(c: Config, i: nat, input: Input)
    requires i >= |c.tasks|
    ensures Next(c, Step(i, input)) == c
  {
  }

  lemma WaiterBalance(c: Config, i: nat, input: Input)
    requires i < |c.tasks| && c.tasks[i].AcceptWait? && AllCounted(c)
    ensures AllCounted(Next(c, Step(i, input)))
  {
    hide Due, CountTo, Counter;
    var c' := Next(c, Step(i, input));
    forall u
      ensures Counted(c', u)
    {
      assert Counted(c, u);
      DueUpdate(c.tasks, i, AcceptReadRide(c.tasks[i].ride, c.tasks[i].driver), u);
    }
  }

  lemma AbortCountsExactlyWhen(c: Config, i: nat)
    requires AllCounted(c)
    ensures AllCounted(Next(c, Abort(i))) <==> FreshSave(c, Abort(i))
  {
    hide Due, CountTo, Counter, Critical, Owed;
    if i < |c.tasks| {
      var c' := Next(c, Abort(i));
      DoneOwesNothing();
      forall u: Id
        ensures Counted(c', u) <==> Owed(c.tasks[i]) != Some(u)
      {
        assert Counted(c, u);
        DueUpdate(c.tasks, i, Done(Failed), u);
      }
    }
  }

  lemma DoneOwesNothing()
    ensures Owed(Done(Failed)).None?
  {
  }

  lemma OtherCounts(c: Config, a: Action)
    requires !a.Step? && !a.Abort? && AllCounted(c)
    ensures AllCounted(Next(c, a))
  {
    hide StepConsumer, Admit, Due, CountTo, Counter, Owed;
    var c' := Next(c, a);
    if a.Handle? {
      ConsumerFrame(c.w, c.consumer, a.handled);
    }
    forall u
      ensures Counted(c', u)
    {
      assert Counted(c, u);
      if a.Spawn? && Admit(c.w, a.call).Some? {
        DueAppend(c.tasks, Admit(c.w, a.call).value, u);
        AdmittedOwesNothing(c.w, a.call);
      }
    }
  }

  lemma AdmittedOwesNothing(w: World, call: Call)
    ensures Admit(w, call).Some? ==> Owed(Admit(w, call).value).None?
  {
    hide Authenticated;
  }

  /** One action keeps the counters exactly when its save is fresh and it drops no rating. */
  lemma CountedExactlyWhen(c: Config, a: Action)
    requires Auth.ConfigOK(c) && AllCounted(c)
    ensures AllCounted(Next(c, a)) <==> FreshSave(c, a)
  {
    if a.Step? {
      StepCountsExactlyWhen(c, a.task, a.input);
    } else if a.Abort? {
      AbortCountsExactlyWhen(c, a.task);
    } else {
      OtherCounts(c, a);
    }
  }

  // ---------- every run ----------

  ghost predicate CountedThroughout(actions: seq<Action>) {
    && AllCounted(Exec(Start, actions))
    && (actions != [] ==> CountedThroughout(actions[..|actions| - 1]))
  }

  ghost predicate FreshThroughout(actions: seq<Action>) {
    actions != [] ==>
      FreshSave(Exec(Start, actions[..|actions| - 1]), actions[|actions| - 1])
      && FreshThroughout(actions[..|actions| - 1])
  }

  /** Under any interleaving, users' counters and the ratings still to be counted make up the
      ratings table all through a run exactly when every user row saved carries the stored
      counter, plus one in rate, and no rating is torn down before it is counted. */
  lemma {:induction false} CountersExactlyWhen(actions: seq<Action>)
    ensures CountedThroughout(actions) <==> FreshThroughout(actions)
  {
    hide Next, AllCounted, FreshSave, Auth.ConfigOK;
    if actions == [] {
      NoRatingsYet();
    } else {
      var init := actions[..|actions| - 1];
      CountersExactlyWhen(init);
      if CountedThroughout(init) {
        Auth.RunOK(init);
        CountedExactlyWhen(Exec(Start, init), actions[|actions| - 1]);
      }
    }
  }

  lemma NoRatingsYet()
    ensures AllCounted(Start)
  {
  }

  /** So after such a run, once no rating of a user is under way, the counter is the number of
      ratings to the user in the table. */
  lemma SettledCounter(actions: seq<Action>, u: Id)
    requires FreshThroughout(actions) && u in Exec(Start, actions).w.users
    requires var c := Exec(Start, actions); forall i :: 0 <= i < |c.tasks| ==> Owed(c.tasks[i]) != Some(u)
    ensures var w := Exec(Start, actions).w; w.users[u].ratingCount == CountTo(w.ratings, u)
  {
    hide Exec, Owed, CountTo, FreshSave;
    CountersExactlyWhen(actions);
    assert Counted(Exec(Start, actions), u);
    NothingDue(Exec(Start, actions).tasks, u);
  }
}

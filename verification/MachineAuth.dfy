/** What every interleaving keeps about accounts: DRIVER authority implies a driver profile,
    although user rows are overwritten by stale tasks, and no handler ever misses a profile. */
module MachineAuth {
  import opened Models
  import opened Surge
  import opened Fares
  import opened Pricing
  import opened Dispatch
  import opened Worlds
  import opened Machine
  import opened MachineFrames
  import Serial

  // ---------- invariant ----------

  /** Accounts and driver profiles are never removed and usernames never change. */
  predicate Grows(w: World, w': World) {
    && (forall id :: id in w.users ==> id in w'.users && w'.users[id].username == w.users[id].username)
    && (forall id :: id in w.drivers ==> id in w'.drivers)
  }

  /** A user row or snapshot of a stored account; DRIVER only if it has a profile. */
  predicate AccountOK(w: World, u: User) {
    && u.id in w.users && w.users[u.id].username == u.username
    && (u.role == DRIVER ==> u.id in w.drivers)
  }

  predicate AccountsOK(w: World) {
    && (forall id :: id in w.users ==> w.users[id].id == id && AccountOK(w, w.users[id]))
    && (forall i, j :: i in w.users && j in w.users && w.users[i].username == w.users[j].username ==> i == j)
  }

  /** The username is a stored account's; in DRIVER mode, of one with a profile. */
  predicate NameOK(w: World, username: string, role: Role) {
    exists id :: id in w.users && w.users[id].username == username && (role == DRIVER ==> id in w.drivers)
  }

  predicate TokensOK(w: World) {
    forall token :: token in w.tokens ==> NameOK(w, token.username, token.role)
  }

  /** A ride's driver has a profile. */
  predicate DriverKnown(w: World, r: Ride) {
    r.driver.Some? ==> r.driver.value in w.drivers
  }

  predicate RidesOK(w: World) {
    forall id :: id in w.rides ==> DriverKnown(w, w.rides[id])
  }

  predicate WorldOK(w: World) { AccountsOK(w) && TokensOK(w) && RidesOK(w) }

  predicate ResumeOK(w: World, k: Resume) {
    match k
    case ToAcceptSave(_, driver) => driver in w.drivers
    case ToCancelSave(row) => DriverKnown(w, row)
    case ToUpgrade(user) => AccountOK(w, user) && user.role == DRIVER
    case _ => true
  }

  /** The new driver's account is upgraded only after the profile is saved. */
  predicate PlanOK(w: World, profile: Driver, k: Resume) {
    if k.ToUpgrade? then
      k.user.id == profile.userId && k.user.role == DRIVER
      && k.user.id in w.users && w.users[k.user.id].username == k.user.username
    else ResumeOK(w, k)
  }

  predicate TaskOK(w: World, t: Task) {
    match t
    case AcceptWait(_, driver) => driver in w.drivers
    case AcceptReadRide(_, driver) => driver in w.drivers
    case AcceptReadDriver(_, driver) => driver in w.drivers
    case AcceptSave(_, driver) => driver in w.drivers
    case MarkRead(driver, _, k) => driver in w.drivers && ResumeOK(w, k) && !k.ToUpgrade? && !k.ToRateUser?
    case DriverSave(profile, k) => PlanOK(w, profile, k)
    case DriverSync(profile, k) => profile.userId in w.drivers && ResumeOK(w, k)
    case StartSave(row) => DriverKnown(w, row)
    case CompleteRead(_, driver) => driver in w.drivers
    case CompleteSave(row, driver) => driver in w.drivers && DriverKnown(w, row)
    case CancelSave(row) => DriverKnown(w, row)
    case OnlineProfile(user, _) => user in w.drivers
    case OnlineLocate(user, _) => user in w.drivers
    case OfflineProfile(user) => user in w.drivers
    case OfflineLocate(user) => user in w.drivers
    case LocationProfile(user, _) => user in w.drivers
    case RateUserSave(account) => AccountOK(w, account)
    case RegisterCheck(account, _, _) => AccountOK(w, account)
    case UpgradeUser(account) => AccountOK(w, account) && account.role == DRIVER
    case Issue(username, role) => NameOK(w, username, role)
    case _ => true
  }

  predicate ConfigOK(c: Config) {
    WorldOK(c.w) && forall i :: 0 <= i < |c.tasks| ==> TaskOK(c.w, c.tasks[i])
  }

  // ---------- what growth keeps ----------

  lemma NameStays(w: World, w': World, username: string, role: Role)
    requires Grows(w, w') && NameOK(w, username, role)
    ensures NameOK(w', username, role)
  {
    var id :| id in w.users && w.users[id].username == username && (role == DRIVER ==> id in w.drivers);
    assert id in w'.users;
  }

  lemma TaskStays(w: World, w': World, t: Task)
    requires Grows(w, w') && TaskOK(w, t)
    ensures TaskOK(w', t)
  {
    hide NameOK;
    if t.Issue? {
      NameStays(w, w', t.username, t.role);
    }
  }

  lemma TokensStay(w: World, w': World)
    requires Grows(w, w') && TokensOK(w) && w'.tokens == w.tokens
    ensures TokensOK(w')
  {
    hide Grows, NameOK;
    forall token | token in w'.tokens
      ensures NameOK(w', token.username, token.role)
    {
      NameStays(w, w', token.username, token.role);
    }
  }

  lemma GrowsTransitive(w1: World, w2: World, w3: World)
    requires Grows(w1, w2) && Grows(w2, w3)
    ensures Grows(w1, w3)
  {
  }

  // ---------- one step of one task ----------

  /** A step from task t to t' is safe for accounts. */
  predicate Safe(w: World, w': World, t': Task) {
    WorldOK(w') && Grows(w, w') && TaskOK(w', t')
  }

  lemma SameAccountsSafe(w: World, w': World)
    requires WorldOK(w) && w'.users == w.users && w'.drivers == w.drivers
    requires w'.tokens == w.tokens && w'.rides == w.rides
    ensures WorldOK(w') && Grows(w, w')
  {
    hide NameOK;
    TokensStay(w, w');
  }

  /** A full-row replace of a user row by a snapshot, however stale. */
  lemma SaveUserSafe(w: World, u: User)
    requires WorldOK(w) && AccountOK(w, u)
    ensures WorldOK(SaveUser(w, u)) && Grows(w, SaveUser(w, u))
  {
    hide NameOK;
    TokensStay(w, SaveUser(w, u));
  }

  lemma NewUserSafe(w: World, u: User)
    requires WorldOK(w) && u.id !in w.users && !UsernameTaken(w, u.username) && u.role == RIDER
    ensures WorldOK(SaveUser(w, u)) && Grows(w, SaveUser(w, u))
    ensures NameOK(SaveUser(w, u), u.username, RIDER)
  {
    var w' := SaveUser(w, u);
    assert u.id in w'.users && w'.users[u.id].username == u.username;
    assert forall id :: id in w.users ==> w.users[id].username != u.username;
    TokensStay(w, w');
  }

  lemma SaveDriverRowSafe(w: World, d: Driver)
    requires WorldOK(w)
    ensures WorldOK(SaveDriverRow(w, d)) && Grows(w, SaveDriverRow(w, d))
  {
    hide NameOK;
    TokensStay(w, SaveDriverRow(w, d));
  }

  lemma SaveRideSafe(w: World, w': World, r: Ride)
    requires WorldOK(w) && DriverKnown(w, r)
    requires w'.users == w.users && w'.drivers == w.drivers && w'.tokens == w.tokens
    requires w'.rides == w.rides[r.id := r]
    ensures WorldOK(w') && Grows(w, w')
  {
    hide NameOK;
    TokensStay(w, w');
  }

  lemma IssueSafe(w: World, username: string, role: Role)
    requires WorldOK(w) && NameOK(w, username, role)
    ensures WorldOK(IssueToken(w, username, role)) && Grows(w, IssueToken(w, username, role))
  {
    var w' := IssueToken(w, username, role);
    forall token | token in w'.tokens
      ensures NameOK(w', token.username, token.role)
    {
      hide NameOK;
      if token in w.tokens {
        NameStays(w, w', token.username, token.role);
      } else {
        NameStays(w, w', username, role);
      }
    }
  }

  lemma RequestSafe(w: World, t: Task, input: Input)
    requires WorldOK(w) && IsRequest(t)
    ensures Safe(w, StepRequest(w, t, input).0, StepRequest(w, t, input).1)
  {
    hide ComputeMultiplier, FareCents, WorldOK, Grows, HasActiveRide, PendingNear, Lookup, Live, KeepAvailable, Put;
    var (w', t') := StepRequest(w, t, input);
    if t.RequestSave? && t' != t {
      SaveRideSafe(w, w', t'.saved);
    } else {
      SameAccountsSafe(w, w');
    }
  }

  lemma AcceptSafe(w: World, t: Task)
    requires WorldOK(w) && TaskOK(w, t) && IsAccept(t)
    ensures Safe(w, StepAccept(w, t).0, StepAccept(w, t).1)
  {
    hide WorldOK, Grows, SaveMatch, PublishAccepted;
    if t.AcceptSave? {
      MatchedSafe(w, t.snapshot, t.driver);
    } else if t.AcceptPublish? {
      PublishedSafe(w, t.saved.id);
    } else {
      SameAccountsSafe(w, w);
    }
  }

  lemma MatchedSafe(w: World, s: Ride, driver: Id)
    requires WorldOK(w) && driver in w.drivers
    ensures WorldOK(SaveMatch(w, s, driver)) && Grows(w, SaveMatch(w, s, driver))
    ensures driver in SaveMatch(w, s, driver).drivers
  {
    hide WorldOK, Grows;
    SaveRideSafe(w, SaveMatch(w, s, driver), Matched(s, driver));
  }

  lemma PublishedSafe(w: World, id: Id)
    requires WorldOK(w)
    ensures WorldOK(PublishAccepted(w, id)) && Grows(w, PublishAccepted(w, id))
    ensures WorldOK(PublishCompleted(w, id)) && Grows(w, PublishCompleted(w, id))
    ensures WorldOK(PublishCancelled(w, id)) && Grows(w, PublishCancelled(w, id))
  {
    hide WorldOK, Grows;
    SameAccountsSafe(w, PublishAccepted(w, id));
    SameAccountsSafe(w, PublishCompleted(w, id));
    SameAccountsSafe(w, PublishCancelled(w, id));
  }

  lemma MarkSafe(w: World, t: Task)
    requires WorldOK(w) && TaskOK(w, t) && IsMark(t)
    ensures Safe(w, StepMark(w, t).0, StepMark(w, t).1)
  {
    hide WorldOK, NameOK, Grows, SaveDriverRow, SyncAvailable, Resumed;
    MarkFrame(w, t);
    if t.DriverSave? {
      SaveDriverRowSafe(w, t.profile);
      SavedProfile(w, t.profile, t.resume);
    } else {
      SameAccountsSafe(w, StepMark(w, t).0);
      TaskStays(w, StepMark(w, t).0, t);
    }
  }

  lemma SavedProfile(w: World, d: Driver, k: Resume)
    requires PlanOK(w, d, k)
    ensures ResumeOK(SaveDriverRow(w, d), k) && d.userId in SaveDriverRow(w, d).drivers
  {
  }

  lemma LifecycleSafe(w: World, t: Task)
    requires WorldOK(w) && TaskOK(w, t) && IsLifecycle(t)
    ensures Safe(w, StepLifecycle(w, t).0, StepLifecycle(w, t).1)
  {
    hide StepLifecycle, Safe, WorldOK, TaskOK;
    if t.StartSave? || t.CompleteSave? || t.CancelSave? {
      SavingSafe(w, t);
    } else if t.CompletePublish? || t.CancelPublish? {
      PublishingSafe(w, t);
    } else {
      ReadSafe(w, t);
    }
  }

  lemma SavingSafe(w: World, t: Task)
    requires WorldOK(w) && TaskOK(w, t) && (t.StartSave? || t.CompleteSave? || t.CancelSave?)
    ensures Safe(w, StepLifecycle(w, t).0, StepLifecycle(w, t).1)
  {
    hide WorldOK, Grows;
    SaveRideSafe(w, StepLifecycle(w, t).0, t.row);
  }

  lemma PublishingSafe(w: World, t: Task)
    requires WorldOK(w) && (t.CompletePublish? || t.CancelPublish?)
    ensures Safe(w, StepLifecycle(w, t).0, StepLifecycle(w, t).1)
  {
    hide WorldOK, Grows, PublishCompleted, PublishCancelled;
    PublishedSafe(w, t.saved.id);
  }

  lemma ReadSafe(w: World, t: Task)
    requires WorldOK(w) && TaskOK(w, t) && (t.StartRead? || t.CompleteRead? || t.CancelRead?)
    ensures Safe(w, StepLifecycle(w, t).0, StepLifecycle(w, t).1)
  {
    hide WorldOK, Grows;
    SameAccountsSafe(w, w);
    if t.ride in w.rides {
      StoredRide(w, t.ride);
    }
  }

  lemma StoredRide(w: World, id: Id)
    requires WorldOK(w) && id in w.rides
    ensures DriverKnown(w, w.rides[id])
  {
  }

  lemma DriverSafe(w: World, t: Task, input: Input)
    requires WorldOK(w) && TaskOK(w, t) && IsDriver(t)
    ensures Safe(w, StepDriver(w, t, input).0, StepDriver(w, t, input).1)
  {
    hide WorldOK, Grows, StepDriver, TaskOK;
    DriverFrame(w, t, input);
    SameAccountsSafe(w, StepDriver(w, t, input).0);
    DriverNext(w, t, input);
    TaskStays(w, StepDriver(w, t, input).0, StepDriver(w, t, input).1);
  }

  lemma DriverNext(w: World, t: Task, input: Input)
    requires TaskOK(w, t) && IsDriver(t)
    ensures TaskOK(w, StepDriver(w, t, input).1)
  {
    hide FirstHeld, TellMoved;
  }

  lemma RateSafe(w: World, t: Task)
    requires WorldOK(w) && TaskOK(w, t) && IsRate(t)
    ensures Safe(w, StepRate(w, t).0, StepRate(w, t).1)
  {
    hide WorldOK, Grows, StepRate, TaskOK;
    RateFrame(w, t);
    RateGoesOn(w, t);
    if t.RateUserSave? || t.RateUser? {
      RateUserSafe(w, t);
    } else {
      SameAccountsSafe(w, StepRate(w, t).0);
      JudgingOK(StepRate(w, t).0, StepRate(w, t).1);
    }
  }

  lemma JudgingOK(w: World, t: Task)
    requires Judging(t)
    ensures TaskOK(w, t)
  {
  }

  lemma RateUserSafe(w: World, t: Task)
    requires WorldOK(w) && TaskOK(w, t) && (t.RateUserSave? || t.RateUser?)
    ensures Safe(w, StepRate(w, t).0, StepRate(w, t).1)
  {
    hide WorldOK, Grows, NameOK, AccountOK, SaveUser, Serial.RatedUser;
    if t.RateUserSave? {
      SaveUserSafe(w, t.account);
    } else {
      SameAccountsSafe(w, w);
      if t.to in w.users {
        StoredAccount(w, t.to);
        RatedAccount(w, w.users[t.to], t.score);
      }
    }
  }

  lemma RatedAccount(w: World, u: User, score: nat)
    requires AccountOK(w, u)
    ensures AccountOK(w, Serial.RatedUser(u, score))
  {
  }

  lemma StoredAccount(w: World, id: Id)
    requires WorldOK(w) && id in w.users
    ensures w.users[id].id == id && AccountOK(w, w.users[id])
    ensures NameOK(w, w.users[id].username, w.users[id].role)
    ensures NameOK(w, w.users[id].username, RIDER)
  {
  }

  lemma AccountSafe(w: World, t: Task, input: Input)
    requires WorldOK(w) && TaskOK(w, t) && IsAccount(t)
    ensures Safe(w, StepAccount(w, t, input).0, StepAccount(w, t, input).1)
  {
    hide StepAccount, Safe, WorldOK, TaskOK;
    if t.UpgradeUser? || t.Issue? {
      UpgradeSafe(w, t, input);
    } else if t.SignUpSave? {
      SignUpSafe(w, t, input);
    } else {
      AccountReadSafe(w, t, input);
    }
  }

  lemma UpgradeSafe(w: World, t: Task, input: Input)
    requires WorldOK(w) && TaskOK(w, t) && (t.UpgradeUser? || t.Issue?)
    ensures Safe(w, StepAccount(w, t, input).0, StepAccount(w, t, input).1)
  {
    hide WorldOK, Grows, NameOK, IssueToken;
    if t.Issue? {
      IssueSafe(w, t.username, t.role);
    } else {
      SaveUserSafe(w, t.account);
      StoredAccount(SaveUser(w, t.account), t.account.id);
    }
  }

  lemma SignUpSafe(w: World, t: Task, input: Input)
    requires WorldOK(w) && t.SignUpSave?
    ensures Safe(w, StepAccount(w, t, input).0, StepAccount(w, t, input).1)
  {
    hide WorldOK, Grows, UsernameTaken, NameOK, SaveUser;
    SameAccountsSafe(w, w);
    if input.uuid !in w.users && !UsernameTaken(w, t.username) {
      NewUserSafe(w, User(input.uuid, t.username, RIDER, None, 0));
    }
  }

  lemma AccountReadSafe(w: World, t: Task, input: Input)
    requires WorldOK(w) && TaskOK(w, t)
    requires t.RegisterCheck? || t.SignUpCheck? || t.LoginRead? || t.SwitchRead?
    ensures Safe(w, StepAccount(w, t, input).0, StepAccount(w, t, input).1)
  {
    hide WorldOK, Grows, UsernameTaken, NameOK;
    SameAccountsSafe(w, w);
    if t.LoginRead? || t.SwitchRead? {
      if t.caller in w.users {
        StoredAccount(w, t.caller);
      }
    }
  }

  lemma RetrySafe(w: World, t: Task, input: Input)
    requires WorldOK(w) && TaskOK(w, t)
    requires !IsRequest(t) && !IsAccept(t) && !IsMark(t) && !IsLifecycle(t)
    requires !IsDriver(t) && !IsRate(t) && !IsAccount(t)
    ensures Safe(w, StepRetry(w, t, input).0, StepRetry(w, t, input).1)
  {
    hide WorldOK, Grows, StepRetry, NameOK, AccountOK;
    RetryFrame(w, t, input);
    SameAccountsSafe(w, StepRetry(w, t, input).0);
    TaskStays(w, StepRetry(w, t, input).0, t);
  }

  lemma StepSafe(w: World, t: Task, input: Input)
    requires WorldOK(w) && TaskOK(w, t)
    ensures Safe(w, StepTask(w, t, input).0, StepTask(w, t, input).1)
  {
    hide Safe, WorldOK, TaskOK, StepRequest, StepAccept, StepMark, StepLifecycle,
      StepDriver, StepRate, StepAccount, StepRetry;
    if IsRequest(t) {
      RequestSafe(w, t, input);
    } else if IsAccept(t) {
      AcceptSafe(w, t);
    } else if IsMark(t) {
      MarkSafe(w, t);
    } else if IsLifecycle(t) {
      LifecycleSafe(w, t);
    } else if IsDriver(t) {
      DriverSafe(w, t, input);
    } else if IsRate(t) {
      RateSafe(w, t);
    } else if IsAccount(t) {
      AccountSafe(w, t, input);
    } else {
      RetrySafe(w, t, input);
    }
  }

  // ---------- one action ----------

  /** Who gets past the guards: a token in DRIVER mode means a stored profile. */
  lemma DriverModeHasProfile(w: World, token: Token, user: Id)
    requires WorldOK(w) && Authenticated(w, token, user)
    ensures AccountOK(w, w.users[user]) && NameOK(w, token.username, RIDER)
    ensures InDriverMode(token) ==> user in w.drivers
  {
    assert NameOK(w, token.username, token.role);
  }

  /** The token was issued in the name of the stored user. */
  predicate Identified(w: World, token: Token, user: Id) {
    token in w.tokens && user in w.users && w.users[user].username == token.username
  }

  /** Who may call what: whoever presents a token issued in their name, and on the driver's
      routes only a token in DRIVER mode. */
  lemma AdmittedExactlyWhen(w: World, call: Call)
    ensures Admit(w, call).Some? <==>
            match call
            case CallSignUp(_) => true
            case CallLogin(user) => user in w.users
            case CallSwitch(token, user, _) => Identified(w, token, user)
            case CallRegisterDriver(token, user, _, _) => Identified(w, token, user)
            case CallRequest(token, user, trip) => Identified(w, token, user) && trip.distance.den > 0
            case CallAccept(token, user, _) => Identified(w, token, user) && token.role == DRIVER
            case CallStart(token, user, _) => Identified(w, token, user) && token.role == DRIVER
            case CallComplete(token, user, _) => Identified(w, token, user) && token.role == DRIVER
            case CallCancel(token, user, _) => Identified(w, token, user)
            case CallOnline(token, user, _) => Identified(w, token, user) && token.role == DRIVER
            case CallOffline(token, user) => Identified(w, token, user) && token.role == DRIVER
            case CallLocation(token, user, _) => Identified(w, token, user) && token.role == DRIVER
            case CallRate(token, user, _, _) => Identified(w, token, user)
            case CallRetry => true
  {
  }

  lemma AdmitOK(w: World, call: Call)
    requires WorldOK(w)
    ensures Admit(w, call).Some? ==> TaskOK(w, Admit(w, call).value)
  {
    hide WorldOK, NameOK, Authenticated, AccountOK;
    if !call.CallSignUp? && !call.CallLogin? && !call.CallRetry? && Authenticated(w, call.token, call.user) {
      DriverModeHasProfile(w, call.token, call.user);
    }
  }

  lemma AllTasksStay(c: Config, w': World, tasks': seq<Task>)
    requires ConfigOK(c) && WorldOK(w') && Grows(c.w, w')
    requires forall j :: 0 <= j < |tasks'| ==>
               TaskOK(w', tasks'[j]) || (j < |c.tasks| && tasks'[j] == c.tasks[j])
    ensures forall j :: 0 <= j < |tasks'| ==> TaskOK(w', tasks'[j])
  {
    hide WorldOK, TaskOK, Grows;
    forall j | 0 <= j < |tasks'|
      ensures TaskOK(w', tasks'[j])
    {
      if j < |c.tasks| && tasks'[j] == c.tasks[j] {
        TaskStays(c.w, w', c.tasks[j]);
      }
    }
  }

  lemma ConsumerLeaves(w: World, consumer: Consumer, input: Input)
    ensures var w' := StepConsumer(w, consumer, input).0;
            w'.users == w.users && w'.drivers == w.drivers && w'.tokens == w.tokens && w'.rides == w.rides
  {
    hide StepConsumer;
    ConsumerFrame(w, consumer, input);
  }

  lemma NextOK(c: Config, a: Action)
    requires ConfigOK(c)
    ensures ConfigOK(Next(c, a)) && Grows(c.w, Next(c, a).w)
  {
    hide StepTask, StepConsumer, WorldOK, TaskOK, Admit, Grows, Critical;
    var c' := Next(c, a);
    SameAccountsSafe(c.w, c.w);
    match a
    case Spawn(call) =>
      AdmitOK(c.w, call);
      AllTasksStay(c, c'.w, c'.tasks);
    case Step(i, input) =>
      if i < |c.tasks| {
        if c.tasks[i].AcceptWait? {
          AcquireOK(c, i);
        } else {
          StepSafe(c.w, c.tasks[i], input);
          AllTasksStay(c, c'.w, c'.tasks);
        }
      }
    case Abort(i) =>
      if i < |c.tasks| {
        AbortOK(c.w);
        AllTasksStay(c, c'.w, c'.tasks);
      }
    case Consume(_, _) =>
    case Handle(input) =>
      ConsumerLeaves(c.w, c.consumer, input);
      SameAccountsSafe(c.w, c'.w);
      AllTasksStay(c, c'.w, c'.tasks);
    case AbortHandler =>
    case Tick(_) =>
      SameAccountsSafe(c.w, c'.w);
      AllTasksStay(c, c'.w, c'.tasks);
  }

  lemma AcquireOK(c: Config, i: nat)
    requires ConfigOK(c) && i < |c.tasks| && c.tasks[i].AcceptWait?
    ensures ConfigOK(Acquire(c, i)) && Acquire(c, i).w == c.w
  {
    hide WorldOK;
  }

  lemma AbortOK(w: World)
    ensures TaskOK(w, Done(Failed))
  {
  }

  // ---------- every run ----------

  lemma {:induction false} RunOK(actions: seq<Action>)
    ensures ConfigOK(Exec(Start, actions))
  {
    if actions != [] {
      hide Next, ConfigOK;
      RunOK(actions[..|actions| - 1]);
      NextOK(Exec(Start, actions[..|actions| - 1]), actions[|actions| - 1]);
    }
  }

  lemma {:induction false} RunGrows(c: Config, more: seq<Action>)
    requires ConfigOK(c)
    ensures ConfigOK(Exec(c, more)) && Grows(c.w, Exec(c, more).w)
  {
    hide Next, ConfigOK, Grows;
    if more == [] {
      GrowsReflexive(c.w);
    } else {
      var init := Exec(c, more[..|more| - 1]);
      RunGrows(c, more[..|more| - 1]);
      NextOK(init, more[|more| - 1]);
      GrowsTransitive(c.w, init.w, Exec(c, more).w);
    }
  }

  lemma GrowsReflexive(w: World)
    ensures Grows(w, w)
  {
  }

  // ---------- what this says of every run ----------

  /** Every DRIVER token ever issued names exactly one stored user, now and at every later
      moment of every interleaving, and that user has a driver profile. */
  lemma DriverTokensHaveProfiles(actions: seq<Action>, more: seq<Action>, token: Token)
    requires token in Exec(Start, actions).w.tokens && token.role == DRIVER
    ensures var w := Exec(Start, actions + more).w;
            (exists user :: user in w.users && w.users[user].username == token.username)
            && (forall user :: user in w.users && w.users[user].username == token.username ==> user in w.drivers)
  {
    hide Exec, Grows;
    var c := Exec(Start, actions);
    RunOK(actions);
    ExecConcat(Start, actions, more);
    RunGrows(c, more);
    NameStays(c.w, Exec(c, more).w, token.username, DRIVER);
  }

  /** Every stored user whose role is DRIVER, and every user row that a task holds in order to
      save it, belongs to a user with a profile: the unlocked read-modify-write of rate may
      put a role back to RIDER (MachineUsers.UpgradeKeptExactlyWhen says exactly when), but never
      makes a DRIVER without a profile. */
  lemma DriverRowsHaveProfiles(actions: seq<Action>)
    ensures var c := Exec(Start, actions);
            (forall id :: id in c.w.users && c.w.users[id].role == DRIVER ==> id in c.w.drivers)
            && (forall i, u :: 0 <= i < |c.tasks| && AboutToSave(c.tasks[i], u) && u.role == DRIVER ==>
                  u.id in c.w.drivers)
  {
    hide Exec;
    RunOK(actions);
    var c := Exec(Start, actions);
    forall i, u | 0 <= i < |c.tasks| && AboutToSave(c.tasks[i], u) && u.role == DRIVER
      ensures u.id in c.w.drivers
    {
      assert TaskOK(c.w, c.tasks[i]);
    }
  }

  predicate AboutToSave(t: Task, u: User) {
    (t.RateUserSave? || t.UpgradeUser?) && u == t.account
  }

  /** The answer the next step of a task gives, if that step ends it or leaves the lock. */
  function Answer(w: World, t: Task, input: Input): Option<Outcome>
    requires !t.Done? && !t.AcceptRelease? && !t.AcceptWait?
  {
    var t' := StepTask(w, t, input).1;
    if t'.Done? || t'.AcceptRelease? then Some(t'.outcome) else None
  }

  /** The step looks for the profile of a driver. */
  predicate LooksForProfile(t: Task) {
    t.AcceptReadDriver? || t.MarkRead? || t.OnlineProfile? || t.OfflineProfile? || t.LocationProfile?
  }

  /** Through the guarded routes no handler ever fails to find the profile it looks for: the
      403 of accept_ride and every 404 "No driver profile found" are unreachable. In
      particular complete_ride, which saves the ride before it looks, never stops half-way. */
  lemma ProfileAlwaysFound(actions: seq<Action>, i: nat, input: Input)
    requires i < |Exec(Start, actions).tasks| && LooksForProfile(Exec(Start, actions).tasks[i])
    ensures var c := Exec(Start, actions);
            Answer(c.w, c.tasks[i], input) !in {Some(Refused(403)), Some(Refused(404))}
  {
    hide Exec, WorldOK;
    RunOK(actions);
    var c := Exec(Start, actions);
    assert TaskOK(c.w, c.tasks[i]);
  }
}

/** What is published on the four topics in every interleaving (services/ride.py:43-130,
    kafka_producer.py): every ride row that a handler saves as REQUESTED, MATCHED, COMPLETED or
    CANCELLED is announced exactly once, unless the handler is torn down in between, and nothing
    else is announced but what the retry job repeats. */
module MachineTopics {
  import opened Models
  import opened Surge
  import opened Fares
  import opened Pricing
  import opened Dispatch
  import opened Worlds
  import opened Machine
  import opened MachineFrames
  import Auth = MachineAuth
  import Rides = MachineRides
  import Saves = MachineSaves
  import Serial

  datatype Message = Message(topic: Topic, ride: Id)

  /** The log of a topic. */
  function Sent(w: World, topic: Topic): seq<Id> {
    match topic
    case RequestedTopic => w.requested
    case AcceptedTopic => w.accepted
    case CompletedTopic => w.completed
    case CancelledTopic => w.cancelled
  }

  /** How often the message was published. */
  function Times(log: seq<Id>, id: Id): nat {
    if log == [] then 0 else Times(log[..|log| - 1], id) + if log[|log| - 1] == id then 1 else 0
  }

  /** The message that a row of this status calls for. */
  function CalledFor(r: Ride): Option<Message> {
    match r.status
    case REQUESTED => Some(Message(RequestedTopic, r.id))
    case MATCHED => Some(Message(AcceptedTopic, r.id))
    case IN_PROGRESS => None
    case COMPLETED => Some(Message(CompletedTopic, r.id))
    case CANCELLED => Some(Message(CancelledTopic, r.id))
  }

  /** What a task has saved and not yet announced. */
  function Owing(t: Task): Option<Message> {
    match t
    case RequestPublish(saved) => Some(Message(RequestedTopic, saved.id))
    case AcceptPublish(saved) => Some(Message(AcceptedTopic, saved.id))
    case CompletePublish(saved) => Some(Message(CompletedTopic, saved.id))
    case MarkRead(_, _, k) => OwingAfter(k)
    case DriverSave(_, k) => OwingAfter(k)
    case DriverSync(_, k) => OwingAfter(k)
    case CancelPublish(saved) => Some(Message(CancelledTopic, saved.id))
    case _ => None
  }

  function OwingAfter(k: Resume): Option<Message> {
    if k.ToCompletePublish? then Some(Message(CompletedTopic, k.saved.id)) else None
  }

  function One(o: Option<Message>, m: Message): nat { if o == Some(m) then 1 else 0 }

  /** How many tasks have the message still to publish. */
  function Due(tasks: seq<Task>, m: Message): nat {
    if tasks == [] then 0 else Due(tasks[..|tasks| - 1], m) + One(Owing(tasks[|tasks| - 1]), m)
  }

  lemma {:induction false} DueUpdate(tasks: seq<Task>, i: nat, t: Task, m: Message)
    requires i < |tasks|
    ensures Due(tasks[i := t], m) == Due(tasks, m) - One(Owing(tasks[i]), m) + One(Owing(t), m)
  {
    hide Owing, One;
    var n := |tasks| - 1;
    if i < n {
      assert tasks[i := t][..n] == tasks[..n][i := t];
      DueUpdate(tasks[..n], i, t, m);
    } else {
      assert tasks[i := t][..n] == tasks[..n];
    }
  }

  lemma DueAppend(tasks: seq<Task>, t: Task, m: Message)
    ensures Due(tasks + [t], m) == Due(tasks, m) + One(Owing(t), m)
  {
    assert (tasks + [t])[..|tasks|] == tasks;
  }

  // ---------- one step ----------

  /** What the step publishes. */
  function Published(t: Task): Option<Message> {
    match t
    case RequestPublish(saved) => Some(Message(RequestedTopic, saved.id))
    case AcceptPublish(saved) => Some(Message(AcceptedTopic, saved.id))
    case CompletePublish(saved) => Some(Message(CompletedTopic, saved.id))
    case CancelPublish(saved) => Some(Message(CancelledTopic, saved.id))
    case RetryPublish(ids) => if ids == [] then None else Some(Message(RequestedTopic, ids[0]))
    case _ => None
  }

  /** What the retry job publishes, for a row it has not saved. */
  function Repeated(t: Task): Option<Message> {
    if t.RetryPublish? && t.ids != [] then Some(Message(RequestedTopic, t.ids[0])) else None
  }

  /** The topics but for one message. */
  predicate Extended(w: World, w': World, o: Option<Message>) {
    && w'.requested == w.requested + (if o.Some? && o.value.topic == RequestedTopic then [o.value.ride] else [])
    && w'.accepted == w.accepted + (if o.Some? && o.value.topic == AcceptedTopic then [o.value.ride] else [])
    && w'.completed == w.completed + (if o.Some? && o.value.topic == CompletedTopic then [o.value.ride] else [])
    && w'.cancelled == w.cancelled + (if o.Some? && o.value.topic == CancelledTopic then [o.value.ride] else [])
  }

  lemma Nothing(w: World, w': World)
    requires SameTopics(w, w')
    ensures Extended(w, w', None)
  {
  }

  lemma RequestPublishes(w: World, t: Task, input: Input)
    requires IsRequest(t)
    ensures Extended(w, StepRequest(w, t, input).0, Published(t))
  {
    hide HasActiveRide, PendingNear, KeepAvailable, Answers, Live, Lookup, ComputeMultiplier, FareCents, StoreSurge,
      SaveNew, PublishRequested, SameTopics, Extended;
    NoLog(w);
    if t.RequestPublish? {
      OnePublished(w, t.saved.id);
    } else {
      if t.RequestCacheSet? {
        SurgeLogs(w, t.trip.cell, t.pending, t.free, ComputeMultiplier(t.pending, t.free));
      } else if t.RequestSave? && input.uuid !in w.rides && ValidTrip(t.trip) {
        NewLogs(w, NewRide(input.uuid, t.rider, t.trip, FareCents(t.trip.distance, t.multiplier), t.at),
                Quotation(t.trip, t.multiplier, t.servedAt));
      }
      Nothing(w, StepRequest(w, t, input).0);
    }
  }

  lemma OnePublished(w: World, id: Id)
    ensures Extended(w, PublishRequested(w, id), Some(Message(RequestedTopic, id)))
    ensures Extended(w, PublishAccepted(w, id), Some(Message(AcceptedTopic, id)))
    ensures Extended(w, PublishCompleted(w, id), Some(Message(CompletedTopic, id)))
    ensures Extended(w, PublishCancelled(w, id), Some(Message(CancelledTopic, id)))
  {
    hide PublishRequested, PublishAccepted, PublishCompleted, PublishCancelled;
    PublishLogs(w, id);
  }

  lemma AcceptPublishes(w: World, t: Task)
    requires IsAccept(t)
    ensures Extended(w, StepAccept(w, t).0, Published(t))
  {
    hide SaveMatch, PublishAccepted, SameTopics, Extended;
    NoLog(w);
    if t.AcceptPublish? {
      OnePublished(w, t.saved.id);
    } else {
      if t.AcceptSave? {
        MatchLogs(w, t.snapshot, t.driver);
      }
      Nothing(w, StepAccept(w, t).0);
    }
  }

  lemma MarkPublishes(w: World, t: Task)
    requires IsMark(t)
    ensures Extended(w, StepMark(w, t).0, Published(t))
  {
    hide SaveDriverRow, SyncAvailable, CloseStream;
    if t.DriverSave? {
      DriverRowLogs(w, t.profile);
    } else if t.DriverSync? {
      SyncLogs(w, t.profile);
      var key := if t.resume.ToClose? then t.resume.driver else 0;
      StreamLogs(SyncAvailable(w, t.profile), SomeRide, SomeRide.pickup, key);
    }
  }

  const SomeRide := Ride(0, 0, None, Point(0.0, 0.0), Point(0.0, 0.0), REQUESTED, None, None, 0, None, 0)

  lemma LifecyclePublishes(w: World, t: Task)
    requires IsLifecycle(t)
    ensures Extended(w, StepLifecycle(w, t).0, Published(t))
  {
    hide SaveRide, PublishCompleted, PublishCancelled, Started, Completed, Cancelled, SameTopics, Extended;
    NoLog(w);
    if t.CompletePublish? || t.CancelPublish? {
      OnePublished(w, t.saved.id);
    } else {
      if t.StartSave? || t.CompleteSave? || t.CancelSave? {
        RideLogs(w, t.row);
      }
      Nothing(w, StepLifecycle(w, t).0);
    }
  }

  lemma DriverPublishes(w: World, t: Task, input: Input)
    requires IsDriver(t)
    ensures Extended(w, StepDriver(w, t, input).0, Published(t))
  {
    hide TellMoved, FirstHeld, SameTopics, Extended;
    NoLog(w);
    if t.LocationRide? {
      var held := First(input.ids);
      if FirstHeld(w, t.user, held) && held.Some? {
        HeldStored(w, t.user, held);
        StreamLogs(w, w.rides[held.value], t.place, 0);
      }
    } else {
      LocateLogs(w, StepDriver(w, t, input).0.located);
    }
    Nothing(w, StepDriver(w, t, input).0);
  }

  lemma HeldStored(w: World, user: Id, held: Option<Id>)
    requires FirstHeld(w, user, held) && held.Some?
    ensures held.value in w.rides
  {
  }

  lemma RatePublishes(w: World, t: Task)
    requires IsRate(t)
    ensures Extended(w, StepRate(w, t).0, Published(t))
  {
    hide HasRated, Serial.Ratee, Serial.RefusedRatee, Serial.RatedDriver, Serial.RatedUser, AddRating, SaveUser,
      SameTopics, Extended;
    NoLog(w);
    if t.RateInsert? {
      RatingLogs(w, Rating(t.ride, t.from, t.to, t.score));
    } else if t.RateUserSave? {
      UserLogs(w, t.account);
    }
    Nothing(w, StepRate(w, t).0);
  }

  lemma AccountPublishes(w: World, t: Task, input: Input)
    requires IsAccount(t)
    ensures Extended(w, StepAccount(w, t, input).0, Published(t))
  {
    hide UsernameTaken, SaveUser, IssueToken, SameTopics, Extended;
    NoLog(w);
    if t.UpgradeUser? {
      UserLogs(w, t.account);
    } else if t.SignUpSave? {
      UserLogs(w, User(input.uuid, t.username, RIDER, None, 0));
    } else if t.Issue? {
      IssueLogs(w, t.username, t.role);
    }
    Nothing(w, StepAccount(w, t, input).0);
  }

  lemma RetryPublishes(w: World, t: Task, input: Input)
    requires !IsRequest(t) && !IsAccept(t) && !IsLifecycle(t)
    ensures Extended(w, StepRetry(w, t, input).0, Published(t))
  {
    hide Stale, PublishRequested, SameTopics, Extended;
    NoLog(w);
    if t.RetryPublish? && t.ids != [] {
      OnePublished(w, t.ids[0]);
    } else {
      Nothing(w, StepRetry(w, t, input).0);
    }
  }

  /** Each step publishes this message and no other. */
  lemma StepPublishes(w: World, t: Task, input: Input)
    requires !t.AcceptWait?
    ensures Extended(w, StepTask(w, t, input).0, Published(t))
  {
    hide Extended, Published, StepRequest, StepAccept, StepMark, StepLifecycle, StepDriver, StepRate, StepAccount,
      StepRetry;
    if IsRequest(t) {
      RequestPublishes(w, t, input);
    } else if IsAccept(t) {
      AcceptPublishes(w, t);
    } else if IsMark(t) {
      MarkPublishes(w, t);
    } else if IsLifecycle(t) {
      LifecyclePublishes(w, t);
    } else if IsDriver(t) {
      DriverPublishes(w, t, input);
    } else if IsRate(t) {
      RatePublishes(w, t);
    } else if IsAccount(t) {
      AccountPublishes(w, t, input);
    } else {
      RetryPublishes(w, t, input);
    }
  }

  /** The message called for by the row that the step saves. */
  function SavedCalls(w: World, t: Task, input: Input): Option<Message> {
    var r := Saves.SavedRow(w, t, input);
    if r.Some? then CalledFor(r.value) else None
  }

  /** What a task owes after a step: what it owed and what its save calls for, less what it
      published for itself. */
  ghost predicate Balanced(w: World, t: Task, input: Input, t': Task) {
    forall m :: One(Owing(t'), m) + One(Published(t), m)
                == One(Owing(t), m) + One(SavedCalls(w, t, input), m) + One(Repeated(t), m)
  }

  lemma RequestBalance(w: World, t: Task, input: Input)
    requires IsRequest(t)
    ensures Balanced(w, t, input, StepRequest(w, t, input).1)
  {
    hide HasActiveRide, PendingNear, KeepAvailable, Answers, Live, Lookup, ComputeMultiplier, FareCents, StoreSurge,
      SaveNew, PublishRequested;
  }

  lemma AcceptBalance(w: World, t: Task, input: Input)
    requires IsAccept(t)
    ensures Balanced(w, t, input, StepAccept(w, t).1)
  {
    hide SaveMatch, PublishAccepted;
  }

  lemma MarkBalance(w: World, t: Task, input: Input)
    requires IsMark(t) && Auth.TaskOK(w, t)
    ensures Balanced(w, t, input, StepMark(w, t).1)
  {
    hide SaveDriverRow, SyncAvailable, Resumed;
  }

  lemma LifecycleBalance(w: World, t: Task, input: Input)
    requires IsLifecycle(t) && Rides.TaskOK(w, t)
    ensures Balanced(w, t, input, StepLifecycle(w, t).1)
  {
    hide SaveRide, PublishCompleted, PublishCancelled, Started, Completed, Cancelled, Rides.SavableRow;
  }

  /** Handlers that neither save rides nor publish for themselves. */
  predicate Quiet(t: Task) {
    Judging(t) || t.RateUserSave? || IsAccount(t) || Accounting(t) || IsDriver(t) || Placing(t) || IsRate(t)
    || t.Done? || t.RetryFind? || t.RetryPublish?
  }

  lemma QuietTasks(w: World, t: Task, input: Input)
    requires Quiet(t)
    ensures Owing(t).None? && Published(t) == Repeated(t)
  {
  }

  lemma QuietSaves(w: World, t: Task, input: Input)
    requires Quiet(t)
    ensures SavedCalls(w, t, input).None?
  {
  }

  lemma QuietBalance(w: World, t: Task, input: Input, t': Task)
    requires Owing(t).None? && Owing(t').None? && SavedCalls(w, t, input).None? && Published(t) == Repeated(t)
    ensures Balanced(w, t, input, t')
  {
    hide Owing, SavedCalls, Published, Repeated;
  }

  lemma StepBalance(w: World, t: Task, input: Input)
    requires Auth.TaskOK(w, t) && Rides.TaskOK(w, t) && !t.AcceptWait?
    ensures Balanced(w, t, input, StepTask(w, t, input).1)
  {
    hide Owing, Published, SavedCalls, Repeated, Auth.TaskOK, Rides.TaskOK, One, StepRequest, StepAccept, StepMark,
      StepLifecycle, StepDriver, StepRate, StepAccount, StepRetry;
    if IsRequest(t) {
      RequestBalance(w, t, input);
    } else if IsAccept(t) {
      AcceptBalance(w, t, input);
    } else if IsMark(t) {
      MarkBalance(w, t, input);
    } else if IsLifecycle(t) {
      LifecycleBalance(w, t, input);
    } else {
      if IsDriver(t) {
        DriverGoesOn(w, t, input);
      } else if IsRate(t) {
        RateGoesOn(w, t);
      } else if IsAccount(t) {
        AccountGoesOn(w, t, input);
      } else {
        RetryGoesOn(w, t, input);
      }
      QuietTasks(w, t, input);
      QuietSaves(w, t, input);
      QuietTasks(w, StepTask(w, t, input).1, input);
      QuietBalance(w, t, input, StepTask(w, t, input).1);
    }
  }

  lemma RetryGoesOn(w: World, t: Task, input: Input)
    requires !IsRequest(t) && !IsAccept(t) && !IsMark(t) && !IsLifecycle(t) && !IsDriver(t) && !IsRate(t)
    requires !IsAccount(t) && !t.AcceptWait?
    ensures t.RetryFind? || t.RetryPublish? || t.Done?
    ensures var t' := StepRetry(w, t, input).1; t'.RetryFind? || t'.RetryPublish? || t'.Done?
  {
    hide Stale, PublishRequested;
  }

  // ---------- along a run ----------

  /** The message that the row saved by the action calls for. */
  function SavedBy(c: Config, a: Action): Option<Message> {
    if a.Step? && a.task < |c.tasks| then SavedCalls(c.w, c.tasks[a.task], a.input) else None
  }

  /** The message that the retry job repeats in the action. */
  function RepeatedBy(c: Config, a: Action): Option<Message> {
    if a.Step? && a.task < |c.tasks| then Repeated(c.tasks[a.task]) else None
  }

  /** The message owed by the task that the action tears down. */
  function DroppedBy(c: Config, a: Action): Option<Message> {
    if a.Abort? && a.task < |c.tasks| then Owing(c.tasks[a.task]) else None
  }

  /** How many rows calling for the message were saved in the run. */
  function Saved(actions: seq<Action>, m: Message): nat {
    if actions == [] then 0
    else
      var init, a := actions[..|actions| - 1], actions[|actions| - 1];
      Saved(init, m) + One(SavedBy(Exec(Start, init), a), m)
  }

  /** How often the retry job repeated it. */
  function Retried(actions: seq<Action>, m: Message): nat {
    if actions == [] then 0
    else
      var init, a := actions[..|actions| - 1], actions[|actions| - 1];
      Retried(init, m) + One(RepeatedBy(Exec(Start, init), a), m)
  }

  /** How often a task was torn down between the save and the announcement. */
  function Dropped(actions: seq<Action>, m: Message): nat {
    if actions == [] then 0
    else
      var init, a := actions[..|actions| - 1], actions[|actions| - 1];
      Dropped(init, m) + One(DroppedBy(Exec(Start, init), a), m)
  }

  lemma TimesAppend(log: seq<Id>, more: seq<Id>, id: Id)
    requires |more| <= 1
    ensures Times(log + more, id) == Times(log, id) + if more == [id] then 1 else 0
  {
    if more == [] {
      assert log + more == log;
    } else {
      assert (log + more)[..|log|] == log;
    }
  }

  lemma ExtendedTimes(w: World, w': World, o: Option<Message>, m: Message)
    requires Extended(w, w', o)
    ensures Times(Sent(w', m.topic), m.ride) == Times(Sent(w, m.topic), m.ride) + One(o, m)
  {
    TimesAppend(Sent(w, m.topic), if o.Some? && o.value.topic == m.topic then [o.value.ride] else [], m.ride);
  }

  /** Published, owed and dropped, of one message. */
  function Account(c: Config, m: Message): nat { Times(Sent(c.w, m.topic), m.ride) + Due(c.tasks, m) }

  lemma StepAccountMoves(c: Config, i: nat, input: Input, m: Message)
    requires i < |c.tasks| && !c.tasks[i].AcceptWait?
    requires Auth.TaskOK(c.w, c.tasks[i]) && Rides.TaskOK(c.w, c.tasks[i])
    ensures var a := Step(i, input);
            Account(Next(c, a), m) == Account(c, m) + One(SavedBy(c, a), m) + One(RepeatedBy(c, a), m)
  {
    hide StepTask, Extended, Owing, Published, SavedCalls, Repeated, Auth.TaskOK, Rides.TaskOK, Critical, Times, Sent;
    var t := c.tasks[i];
    var (w', t') := StepTask(c.w, t, input);
    StepPublishes(c.w, t, input);
    ExtendedTimes(c.w, w', Published(t), m);
    StepBalance(c.w, t, input);
    DueUpdate(c.tasks, i, t', m);
  }

  lemma WaiterOwesNothing(t: Task, w: World, input: Input)
    requires t.AcceptWait?
    ensures Owing(t).None? && Owing(AcceptReadRide(t.ride, t.driver)).None?
    ensures SavedCalls(w, t, input).None? && Repeated(t).None?
  {
  }

  lemma NewTasksOweNothing(w: World, call: Call)
    ensures Admit(w, call).Some? ==> Owing(Admit(w, call).value).None?
    ensures Owing(Done(Failed)).None?
  {
    hide Authenticated;
  }

  lemma ConsumerPublishesNothing(w: World, consumer: Consumer, input: Input)
    ensures Extended(w, StepConsumer(w, consumer, input).0, None)
  {
    hide KeepAvailable, DriversIn, Answers, Members, Record, Retract, TellEta, CloseStream, SameTopics, Extended;
    NoLog(w);
    if consumer.TellLocate? {
      StreamLogs(w, consumer.ride, consumer.ride.pickup, 0);
    } else if consumer.CompletedRead? || consumer.CancelledRead? {
      StreamLogs(w, SomeRide, SomeRide.pickup, consumer.id);
    } else {
      OfferLogs(w, StepConsumer(w, consumer, input).0.offers);
    }
    Nothing(w, StepConsumer(w, consumer, input).0);
  }

  lemma OfferLogs(w: World, offers: Offers)
    ensures SameTopics(w, w.(offers := offers))
  {
  }

  /** One action: the account of a message grows with the rows saved and the repetitions, and
      shrinks only when a task that owes it is torn down. */
  lemma NextAccount(c: Config, a: Action, m: Message)
    requires Auth.ConfigOK(c) && Rides.ConfigOK(c)
    ensures Account(Next(c, a), m) + One(DroppedBy(c, a), m)
            == Account(c, m) + One(SavedBy(c, a), m) + One(RepeatedBy(c, a), m)
  {
    hide StepTask, StepConsumer, Admit, Critical, Owing, SavedCalls, Repeated, Times, Sent, Rides.WorldOK, Auth.WorldOK,
      Extended, Rides.TaskOK, Auth.TaskOK, Rides.CriticalOK;
    NewTasksOweNothing(c.w, CallRetry);
    match a
    case Spawn(call) =>
      NewTasksOweNothing(c.w, call);
      if Admit(c.w, call).Some? {
        DueAppend(c.tasks, Admit(c.w, call).value, m);
      }
    case Step(i, input) =>
      if i < |c.tasks| {
        if c.tasks[i].AcceptWait? {
          WaiterOwesNothing(c.tasks[i], c.w, input);
          DueUpdate(c.tasks, i, AcceptReadRide(c.tasks[i].ride, c.tasks[i].driver), m);
        } else {
          StepAccountMoves(c, i, input, m);
        }
      }
    case Abort(i) =>
      if i < |c.tasks| {
        DueUpdate(c.tasks, i, Done(Failed), m);
      }
    case Handle(input) =>
      ConsumerPublishesNothing(c.w, c.consumer, input);
      ExtendedTimes(c.w, StepConsumer(c.w, c.consumer, input).0, None, m);
    case Tick(seconds) => SameLogs(c.w, c.w.(now := c.w.now + seconds), m);
    case _ =>
  }

  lemma SameLogs(w: World, w': World, m: Message)
    requires w' == w.(now := w'.now)
    ensures Sent(w', m.topic) == Sent(w, m.topic)
  {
  }

  /** Conservation of messages: in every run, of every message, those published, those still
      owed and those lost with a task torn down are exactly one for each row saved in the
      status it announces, and one for each repetition by the retry job. */
  lemma {:induction false} EveryChangeAnnouncedOnce(actions: seq<Action>, m: Message)
    ensures var c := Exec(Start, actions);
            Times(Sent(c.w, m.topic), m.ride) + Due(c.tasks, m) + Dropped(actions, m)
            == Saved(actions, m) + Retried(actions, m)
  {
    if actions != [] {
      hide Next, SavedBy, RepeatedBy, DroppedBy, Auth.ConfigOK, Rides.ConfigOK;
      var init, a := actions[..|actions| - 1], actions[|actions| - 1];
      EveryChangeAnnouncedOnce(init, m);
      Auth.RunOK(init);
      Rides.RunOK(init);
      NextAccount(Exec(Start, init), a, m);
    }
  }

  lemma {:induction false} NothingDropped(actions: seq<Action>, m: Message)
    requires forall k :: 0 <= k < |actions| ==> !actions[k].Abort?
    ensures Dropped(actions, m) == 0
  {
    if actions != [] {
      hide Exec;
      NothingDropped(actions[..|actions| - 1], m);
    }
  }

  lemma {:induction false} NothingDue(tasks: seq<Task>, m: Message)
    requires forall i :: 0 <= i < |tasks| ==> tasks[i].Done?
    ensures Due(tasks, m) == 0
  {
    if tasks != [] {
      NothingDue(tasks[..|tasks| - 1], m);
    }
  }

  /** So when all calls are done and none was torn down, each topic has exactly one message for
      each row saved in its status, and the retry job's repetitions. */
  lemma AllAnnounced(actions: seq<Action>, m: Message)
    requires forall k :: 0 <= k < |actions| ==> !actions[k].Abort?
    requires var c := Exec(Start, actions); forall i :: 0 <= i < |c.tasks| ==> c.tasks[i].Done?
    ensures Times(Sent(Exec(Start, actions).w, m.topic), m.ride) == Saved(actions, m) + Retried(actions, m)
  {
    hide Exec;
    EveryChangeAnnouncedOnce(actions, m);
    NothingDropped(actions, m);
    NothingDue(Exec(Start, actions).tasks, m);
  }

  // ---------- accepts ----------

  /** How many accepts of the ride were saved. */
  function Commits(w: World, id: Id): nat { if id in w.commits then |w.commits[id]| else 0 }

  lemma RequestCommits(w: World, t: Task, input: Input, id: Id)
    requires IsRequest(t)
    ensures Commits(StepRequest(w, t, input).0, id) == Commits(w, id)
    ensures SavedCalls(w, t, input) != Some(Message(AcceptedTopic, id))
  {
    RequestFrame(w, t, input);
    hide StepRequest, FareCents;
  }

  lemma AcceptCommits(w: World, t: Task, input: Input, id: Id)
    requires IsAccept(t)
    ensures Commits(StepAccept(w, t).0, id)
            == Commits(w, id) + One(SavedCalls(w, t, input), Message(AcceptedTopic, id))
  {
  }

  lemma OtherCommits(w: World, t: Task, input: Input, id: Id)
    requires Rides.TaskOK(w, t) && !IsRequest(t) && !IsAccept(t) && !t.AcceptWait?
    ensures Commits(StepTask(w, t, input).0, id) == Commits(w, id)
    ensures SavedCalls(w, t, input) != Some(Message(AcceptedTopic, id))
  {
    hide StepRequest, StepAccept, StepMark, StepLifecycle, StepDriver, StepRate, StepAccount, StepRetry,
      Rides.SavableRow;
    if IsMark(t) {
      MarkCommits(w, t);
      MarksSaveNothing(w, t, input);
    } else if IsLifecycle(t) {
      LifecycleLeaves(w, t);
      LifecycleCalls(w, t, input, id);
    } else {
      if IsDriver(t) {
        DriverFrame(w, t, input);
      } else if IsRate(t) {
        RateFrame(w, t);
      } else if IsAccount(t) {
        AccountFrame(w, t, input);
      } else {
        RetryFrame(w, t, input);
        RetryGoesOn(w, t, input);
      }
      QuietSaves(w, t, input);
    }
  }

  lemma MarksSaveNothing(w: World, t: Task, input: Input)
    requires IsMark(t)
    ensures SavedCalls(w, t, input).None?
  {
  }

  lemma LifecycleCalls(w: World, t: Task, input: Input, id: Id)
    requires IsLifecycle(t) && Rides.TaskOK(w, t)
    ensures SavedCalls(w, t, input) != Some(Message(AcceptedTopic, id))
  {
    hide Rides.SavableRow;
  }

  lemma MarkCommits(w: World, t: Task)
    requires IsMark(t)
    ensures StepMark(w, t).0.commits == w.commits
  {
  }

  lemma NextCommits(c: Config, a: Action, id: Id)
    requires Rides.ConfigOK(c)
    ensures Commits(Next(c, a).w, id) == Commits(c.w, id) + One(SavedBy(c, a), Message(AcceptedTopic, id))
  {
    hide StepTask, StepConsumer, Admit, Critical, SavedCalls, Rides.WorldOK, Rides.TaskOK, Rides.CriticalOK;
    match a
    case Step(i, input) =>
      if i < |c.tasks| {
        var t := c.tasks[i];
        if t.AcceptWait? {
          WaiterOwesNothing(t, c.w, input);
        } else if IsRequest(t) {
          RequestCommits(c.w, t, input, id);
          RequestStep(c.w, t, input);
        } else if IsAccept(t) {
          AcceptCommits(c.w, t, input, id);
          AcceptStep(c.w, t, input);
        } else {
          OtherCommits(c.w, t, input, id);
        }
      }
    case Handle(input) => ConsumerFrame(c.w, c.consumer, input);
    case _ =>
  }

  lemma RequestStep(w: World, t: Task, input: Input)
    requires IsRequest(t)
    ensures StepTask(w, t, input) == StepRequest(w, t, input)
  {
    hide StepRequest;
  }

  lemma AcceptStep(w: World, t: Task, input: Input)
    requires IsAccept(t)
    ensures StepTask(w, t, input) == StepAccept(w, t)
  {
    hide StepAccept;
  }

  lemma {:induction false} CommitsAreSaves(actions: seq<Action>, id: Id)
    ensures Commits(Exec(Start, actions).w, id) == Saved(actions, Message(AcceptedTopic, id))
  {
    if actions != [] {
      hide Next, SavedBy, Rides.ConfigOK;
      var init, a := actions[..|actions| - 1], actions[|actions| - 1];
      CommitsAreSaves(init, id);
      Rides.RunOK(init);
      NextCommits(Exec(Start, init), a, id);
    }
  }

  lemma {:induction false} NeverRepeatsAccepts(actions: seq<Action>, id: Id)
    ensures Retried(actions, Message(AcceptedTopic, id)) == 0
  {
    if actions != [] {
      hide Exec;
      NeverRepeatsAccepts(actions[..|actions| - 1], id);
    }
  }

  /** A saved accept is announced, once: its ride is on ride-accepted, or exactly one accept
      stands between the save and the publishing, or exactly one was torn down there. */
  lemma AcceptAnnounced(actions: seq<Action>, id: Id)
    requires id in Exec(Start, actions).w.commits
    ensures var c, m := Exec(Start, actions), Message(AcceptedTopic, id);
            Times(c.w.accepted, id) + Due(c.tasks, m) + Dropped(actions, m) == 1
    ensures var c := Exec(Start, actions);
            || id in c.w.accepted
            || (exists i :: 0 <= i < |c.tasks| && c.tasks[i].AcceptPublish? && c.tasks[i].saved.id == id)
            || (exists k :: 0 <= k < |actions| && TearsDownAccept(actions, k, id))
  {
    hide Exec;
    var c, m := Exec(Start, actions), Message(AcceptedTopic, id);
    EveryChangeAnnouncedOnce(actions, m);
    CommitsAreSaves(actions, id);
    NeverRepeatsAccepts(actions, id);
    Rides.AtMostOneAccept(actions);
    if Times(c.w.accepted, id) > 0 {
      TimesIn(c.w.accepted, id);
    } else if Due(c.tasks, m) > 0 {
      var i := DueTask(c.tasks, m);
      assert c.tasks[i].AcceptPublish?;
    } else {
      var k := DroppedAt(actions, id);
    }
  }

  /** Action k tears an accept of the ride down that had saved it and not yet published. */
  predicate TearsDownAccept(actions: seq<Action>, k: nat, id: Id)
    requires k < |actions|
  {
    var c := Exec(Start, actions[..k]);
    actions[k].Abort? && actions[k].task < |c.tasks|
    && c.tasks[actions[k].task].AcceptPublish? && c.tasks[actions[k].task].saved.id == id
  }

  lemma {:induction false} TimesIn(log: seq<Id>, id: Id)
    requires Times(log, id) > 0
    ensures id in log
  {
    if log[|log| - 1] != id {
      TimesIn(log[..|log| - 1], id);
    }
  }

  lemma {:induction false} DueTask(tasks: seq<Task>, m: Message) returns (i: nat)
    requires Due(tasks, m) > 0
    ensures i < |tasks| && Owing(tasks[i]) == Some(m)
  {
    hide Owing;
    i := |tasks| - 1;
    if Owing(tasks[i]) != Some(m) {
      i := DueTask(tasks[..i], m);
    }
  }

  lemma {:induction false} DroppedAt(actions: seq<Action>, id: Id) returns (k: nat)
    requires Dropped(actions, Message(AcceptedTopic, id)) > 0
    ensures k < |actions| && TearsDownAccept(actions, k, id)
  {
    hide Exec;
    k := |actions| - 1;
    if DroppedBy(Exec(Start, actions[..k]), actions[k]) != Some(Message(AcceptedTopic, id)) {
      var init := actions[..k];
      k := DroppedAt(init, id);
      assert actions[..k] == init[..k] && actions[k] == init[k];
    }
  }
}

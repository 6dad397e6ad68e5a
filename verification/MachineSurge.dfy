/** Surge soundness and fare provenance in every interleaving: where the multiplier of a
    quote, and the fare of a ride, come from. */
module MachineSurge {
  import opened Models
  import opened Surge
  import opened SurgeText
  import opened Fares
  import opened Pricing
  import opened Dispatch
  import opened Worlds
  import opened RideRows
  import opened Machine
  import opened MachineFrames
  import opened MachineHistory
  import Rides = MachineRides
  import Saves = MachineSaves

  // ---------- invariant ----------

  /** The multiplier served is that of a write for its cell, less than 30 seconds old. */
  predicate FromWrite(q: Quotation, x: SurgeWrite) {
    x.cell == q.trip.cell && x.value == q.multiplier && x.at <= q.servedAt < x.at + 30
  }

  predicate Provenance(w: World, q: Quotation) {
    exists i :: 0 <= i < |w.writes| && FromWrite(q, w.writes[i])
  }

  /** The cache entry is what a write left, with the life that write gave it. */
  predicate EntryOf(e: Entry, cell: Cell, x: SurgeWrite) {
    x.cell == cell && e == Entry(Print(x.value), x.at + 30)
  }

  predicate EntryBacked(w: World, cell: Cell)
    requires cell in w.surge
  {
    exists i :: 0 <= i < |w.writes| && EntryOf(w.surge[cell], cell, w.writes[i])
  }

  predicate WriteOK(w: World, x: SurgeWrite) {
    x.value == ComputeMultiplier(x.pending, x.free) && x.at <= w.now
  }

  predicate CacheOK(w: World) {
    && (forall i :: 0 <= i < |w.writes| ==> WriteOK(w, w.writes[i]))
    && (forall cell :: cell in w.surge ==> EntryBacked(w, cell))
  }

  /** The ride's quoted fare is the fare of its recorded quote, which is of its own trip. */
  predicate Quoted(r: Ride, q: Quotation) {
    && r.pickup == q.trip.pickup && r.dropoff == q.trip.dropoff && ValidTrip(q.trip)
    && r.estimatedFare == Some(FareCents(q.trip.distance, q.multiplier))
  }

  predicate RideOK(w: World, id: Id)
    requires id in w.rides
  {
    id in w.quotes && Quoted(w.rides[id], w.quotes[id]) && Provenance(w, w.quotes[id])
  }

  predicate FaresOK(w: World) {
    forall id :: id in w.rides ==> RideOK(w, id)
  }

  predicate TaskOK(w: World, t: Task) {
    t.RequestSave? ==> Provenance(w, Quotation(t.trip, t.multiplier, t.servedAt))
  }

  predicate TasksOK(c: Config) {
    forall i :: 0 <= i < |c.tasks| ==> TaskOK(c.w, c.tasks[i])
  }

  predicate ConfigOK(c: Config) {
    Rides.ConfigOK(c) && CacheOK(c.w) && FaresOK(c.w) && TasksOK(c)
  }

  // ---------- what steps leave alone ----------

  /** Surge writes are only added to, and the quotes of stored rides stay. */
  predicate Continues(w: World, w': World) {
    && w.writes <= w'.writes
    && (forall id :: id in w.rides && id in w.quotes ==> id in w'.quotes && w'.quotes[id] == w.quotes[id])
  }

  /** No surge write, and no ride is new. */
  predicate Quiet(w: World, w': World) {
    && w'.surge == w.surge && w'.writes == w.writes && w'.quotes == w.quotes && w'.now >= w.now
    && w'.rides.Keys == w.rides.Keys
  }

  lemma ProvenanceStays(w: World, w': World, q: Quotation)
    requires w.writes <= w'.writes && Provenance(w, q)
    ensures Provenance(w', q)
  {
    var i :| 0 <= i < |w.writes| && FromWrite(q, w.writes[i]);
    assert w'.writes[i] == w.writes[i];
  }

  lemma EntryStays(w: World, w': World, cell: Cell)
    requires cell in w.surge && cell in w'.surge && w'.surge[cell] == w.surge[cell]
    requires w.writes <= w'.writes && EntryBacked(w, cell)
    ensures EntryBacked(w', cell)
  {
    var i :| 0 <= i < |w.writes| && EntryOf(w.surge[cell], cell, w.writes[i]);
    assert w'.writes[i] == w.writes[i];
  }

  lemma TasksStay(c: Config, w': World)
    requires TasksOK(c) && c.w.writes <= w'.writes
    ensures forall i :: 0 <= i < |c.tasks| ==> TaskOK(w', c.tasks[i])
  {
    hide Provenance;
    forall i | 0 <= i < |c.tasks|
      ensures TaskOK(w', c.tasks[i])
    {
      if c.tasks[i].RequestSave? {
        var t := c.tasks[i];
        assert TaskOK(c.w, t);
        ProvenanceStays(c.w, w', Quotation(t.trip, t.multiplier, t.servedAt));
      }
    }
  }

  lemma RidesStay(w: World, w': World, id: Id)
    requires FaresOK(w) && id in w.rides && Rides.Later(w, w') && Continues(w, w')
    ensures RideOK(w', id)
  {
    hide Provenance, FareCents;
    assert RideOK(w, id);
    ProvenanceStays(w, w', w.quotes[id]);
  }

  lemma QuietOK(w: World, w': World)
    requires CacheOK(w) && FaresOK(w) && Rides.Later(w, w') && Quiet(w, w')
    ensures CacheOK(w') && FaresOK(w') && Continues(w, w')
  {
    hide EntryBacked, RideOK, Rides.Later;
    forall i | 0 <= i < |w'.writes|
      ensures WriteOK(w', w'.writes[i])
    {
      assert WriteOK(w, w.writes[i]);
    }
    forall cell | cell in w'.surge
      ensures EntryBacked(w', cell)
    {
      EntryStays(w, w', cell);
    }
    forall id | id in w'.rides
      ensures RideOK(w', id)
    {
      assert id in w'.rides.Keys && id in w.rides;
      RidesStay(w, w', id);
    }
  }

  // ---------- one step of one task ----------

  predicate Safe(w: World, w': World, t': Task) {
    CacheOK(w') && FaresOK(w') && Continues(w, w') && TaskOK(w', t')
  }

  /** A cache miss: the write backs the entry and the multiplier returned. */
  lemma StoreSafe(w: World, trip: Trip, pending: nat, free: nat)
    requires CacheOK(w) && FaresOK(w)
    ensures var m := ComputeMultiplier(pending, free);
            var w' := StoreSurge(w, trip.cell, pending, free, m);
            CacheOK(w') && FaresOK(w') && Continues(w, w')
            && Provenance(w', Quotation(trip, m, w.now))
  {
    hide ComputeMultiplier, Print, FareCents, Provenance, EntryBacked;
    var m := ComputeMultiplier(pending, free);
    var w' := StoreSurge(w, trip.cell, pending, free, m);
    var x := SurgeWrite(trip.cell, w.now, pending, free, m);
    NewWrite(w, w', trip, x);
    forall i | 0 <= i < |w'.writes|
      ensures WriteOK(w', w'.writes[i])
    {
      assert i < |w.writes| ==> WriteOK(w, w.writes[i]);
    }
    forall cell | cell in w'.surge
      ensures EntryBacked(w', cell)
    {
      if cell != trip.cell {
        EntryStays(w, w', cell);
      }
    }
    forall id | id in w'.rides
      ensures RideOK(w', id)
    {
      assert RideOK(w, id);
      ProvenanceStays(w, w', w.quotes[id]);
    }
  }

  lemma NewWrite(w: World, w': World, trip: Trip, x: SurgeWrite)
    requires w'.writes == w.writes + [x] && x.cell == trip.cell
    requires w'.surge == Put(w.surge, trip.cell, x.value, x.at)
    ensures EntryBacked(w', trip.cell)
    ensures Provenance(w', Quotation(trip, x.value, x.at))
  {
    hide Print;
    assert w'.writes[|w.writes|] == x;
  }

  /** A cache hit: what is parsed back is what a write stored, and is still fresh. */
  lemma HitSafe(w: World, trip: Trip)
    requires CacheOK(w) && Live(w.surge, trip.cell, w.now)
    ensures var m := Lookup(w.surge, trip.cell, w.now);
            m.Some? && Provenance(w, Quotation(trip, m.value, w.now))
  {
    hide Print, Parse, ComputeMultiplier;
    assert EntryBacked(w, trip.cell);
    var i :| 0 <= i < |w.writes| && EntryOf(w.surge[trip.cell], trip.cell, w.writes[i]);
    assert WriteOK(w, w.writes[i]);
    ParsePrint(w.writes[i].value);
  }

  lemma NewRideSafe(w: World, r: Ride, q: Quotation)
    requires CacheOK(w) && FaresOK(w) && r.id !in w.rides && Quoted(r, q) && Provenance(w, q)
    ensures var w' := SaveNew(w, r, q);
            CacheOK(w') && FaresOK(w') && Continues(w, w')
  {
    hide Provenance, EntryBacked, FareCents, WriteOK;
    var w' := SaveNew(w, r, q);
    forall i | 0 <= i < |w'.writes|
      ensures WriteOK(w', w'.writes[i])
    {
      SameClock(w, w', w.writes[i]);
    }
    forall cell | cell in w'.surge
      ensures EntryBacked(w', cell)
    {
      EntryStays(w, w', cell);
    }
    forall id | id in w'.rides
      ensures RideOK(w', id)
    {
      assert id in w.rides ==> RideOK(w, id);
      ProvenanceStays(w, w', w'.quotes[id]);
    }
  }

  lemma SameClock(w: World, w': World, x: SurgeWrite)
    requires WriteOK(w, x) && w'.now == w.now
    ensures WriteOK(w', x)
  {
  }

  lemma RequestSafe(w: World, t: Task, input: Input)
    requires CacheOK(w) && FaresOK(w) && TaskOK(w, t) && IsRequest(t)
    ensures Safe(w, StepRequest(w, t, input).0, StepRequest(w, t, input).1)
  {
    hide StepRequest, CacheOK, FaresOK, TaskOK, Safe;
    if t.RequestCacheGet? || t.RequestCacheSet? {
      ServingSafe(w, t, input);
    } else if t.RequestSave? {
      SavingSafe(w, t, input);
    } else {
      OtherRequestSafe(w, t, input);
    }
  }

  lemma ServingSafe(w: World, t: Task, input: Input)
    requires CacheOK(w) && FaresOK(w) && (t.RequestCacheGet? || t.RequestCacheSet?)
    ensures Safe(w, StepRequest(w, t, input).0, StepRequest(w, t, input).1)
  {
    hide ComputeMultiplier, Lookup, Live, CacheOK, FaresOK, Provenance, StoreSurge;
    if t.RequestCacheSet? {
      StoreSafe(w, t.trip, t.pending, t.free);
    } else if Live(w.surge, t.trip.cell, w.now) {
      HitSafe(w, t.trip);
    }
  }

  lemma SavingSafe(w: World, t: Task, input: Input)
    requires CacheOK(w) && FaresOK(w) && TaskOK(w, t) && t.RequestSave?
    ensures Safe(w, StepRequest(w, t, input).0, StepRequest(w, t, input).1)
  {
    hide FareCents, CacheOK, FaresOK, Provenance, SaveNew;
    if input.uuid !in w.rides && ValidTrip(t.trip) {
      NewRideSafe(w, NewRide(input.uuid, t.rider, t.trip, FareCents(t.trip.distance, t.multiplier), t.at),
                  Quotation(t.trip, t.multiplier, t.servedAt));
    }
  }

  lemma OtherRequestSafe(w: World, t: Task, input: Input)
    requires CacheOK(w) && FaresOK(w) && IsRequest(t)
    requires !t.RequestCacheGet? && !t.RequestCacheSet? && !t.RequestSave?
    ensures Safe(w, StepRequest(w, t, input).0, StepRequest(w, t, input).1)
  {
    hide HasActiveRide, PendingNear, KeepAvailable, CacheOK, FaresOK, PublishRequested;
    if t.RequestPublish? {
      PublishSafe(w, t.saved.id);
    }
  }

  lemma PublishSafe(w: World, id: Id)
    requires CacheOK(w) && FaresOK(w)
    ensures var w' := PublishRequested(w, id); CacheOK(w') && FaresOK(w') && Continues(w, w')
  {
    hide ComputeMultiplier, FareCents;
    var w' := PublishRequested(w, id);
    assert Rides.Later(w, w');
    QuietOK(w, w');
  }

  /** Every other handler saves only rows of stored rides. */
  lemma OtherQuiet(w: World, t: Task, input: Input)
    requires Rides.TaskOK(w, t) && Rides.CriticalOK(w, t) && !IsRequest(t) && !t.AcceptWait?
    ensures Quiet(w, StepTask(w, t, input).0) && !StepTask(w, t, input).1.RequestSave?
  {
    hide Quiet, Rides.TaskOK, Rides.CriticalOK, StepRequest, StepAccept, StepMark, StepLifecycle, StepDriver,
      StepRate, StepAccount, StepRetry;
    if IsAccept(t) {
      AcceptQuiet(w, t);
    } else if IsLifecycle(t) {
      LifecycleQuiet(w, t);
    } else {
      RestQuiet(w, t, input);
    }
  }

  lemma SaveQuiet(w: World, r: Ride)
    requires r.id in w.rides
    ensures Quiet(w, SaveRide(w, r))
  {
  }

  lemma AcceptQuiet(w: World, t: Task)
    requires Rides.CriticalOK(w, t) && IsAccept(t)
    ensures Quiet(w, StepAccept(w, t).0) && !StepAccept(w, t).1.RequestSave?
  {
    hide SameTrip, Consistent, Rides.DriverCommitted;
  }

  lemma LifecycleQuiet(w: World, t: Task)
    requires Rides.TaskOK(w, t) && IsLifecycle(t)
    ensures Quiet(w, StepLifecycle(w, t).0) && !StepLifecycle(w, t).1.RequestSave?
  {
    hide SameTrip, Consistent, Rides.DriverCommitted, Quiet, SaveRide, PublishCompleted, PublishCancelled,
      SameRideTables;
    if t.StartSave? || t.CompleteSave? || t.CancelSave? {
      SaveQuiet(w, t.row);
    } else if t.CompletePublish? || t.CancelPublish? {
      QuietPublish(w, t.saved.id);
    } else {
      NoCall(w);
      Elsewhere(w, w);
    }
  }

  lemma QuietPublish(w: World, id: Id)
    ensures Quiet(w, PublishCompleted(w, id)) && Quiet(w, PublishCancelled(w, id))
  {
  }

  lemma Elsewhere(w: World, w': World)
    requires SameRideTables(w, w')
    ensures Quiet(w, w')
  {
  }

  lemma RestQuiet(w: World, t: Task, input: Input)
    requires !IsRequest(t) && !IsAccept(t) && !IsLifecycle(t) && !t.AcceptWait?
    ensures Quiet(w, StepTask(w, t, input).0) && !StepTask(w, t, input).1.RequestSave?
  {
    hide StepRequest, StepAccept, StepMark, StepLifecycle, StepDriver, StepRate, StepAccount, StepRetry, SameRideTables,
      SameAccounts, Quiet;
    if IsMark(t) {
      MarkFrame(w, t);
    } else if IsDriver(t) {
      DriverFrame(w, t, input);
      DriverGoesOn(w, t, input);
    } else if IsRate(t) {
      RateFrame(w, t);
      RateGoesOn(w, t);
    } else if IsAccount(t) {
      AccountFrame(w, t, input);
      AccountGoesOn(w, t, input);
    } else {
      RetryFrame(w, t, input);
    }
    Elsewhere(w, StepTask(w, t, input).0);
  }

  lemma StepSafe(w: World, t: Task, input: Input)
    requires CacheOK(w) && FaresOK(w) && TaskOK(w, t) && !t.AcceptWait?
    requires Rides.TaskOK(w, t) && Rides.CriticalOK(w, t) && Rides.Later(w, StepTask(w, t, input).0)
    ensures Safe(w, StepTask(w, t, input).0, StepTask(w, t, input).1)
  {
    hide CacheOK, FaresOK, Continues, Provenance, StepRequest, Rides.TaskOK, Rides.CriticalOK, Rides.Later, Quiet;
    if IsRequest(t) {
      RequestSafe(w, t, input);
    } else {
      hide StepTask;
      OtherQuiet(w, t, input);
      QuietOK(w, StepTask(w, t, input).0);
    }
  }

  // ---------- one action ----------

  lemma AdmitOK(w: World, call: Call)
    ensures Admit(w, call).Some? ==> TaskOK(w, Admit(w, call).value)
  {
    hide Authenticated;
  }

  lemma ConsumerQuiet(w: World, consumer: Consumer, input: Input)
    ensures Quiet(w, StepConsumer(w, consumer, input).0)
  {
    hide StepConsumer;
    ConsumerFrame(w, consumer, input);
  }

  lemma NextOK(c: Config, a: Action)
    requires ConfigOK(c)
    ensures ConfigOK(Next(c, a)) && Continues(c.w, Next(c, a).w) && Rides.Later(c.w, Next(c, a).w)
  {
    hide StepTask, StepConsumer, CacheOK, FaresOK, Rides.ConfigOK, Rides.TaskOK, Rides.CriticalOK, Rides.Later,
      Admit, Critical, Provenance;
    var c' := Next(c, a);
    Rides.NextOK(c, a);
    TasksStay(c, c.w);
    match a
    case Spawn(call) => AdmitOK(c.w, call);
    case Step(i, input) =>
      if i < |c.tasks| && !c.tasks[i].AcceptWait? {
        RidesTask(c, i);
        StepSafe(c.w, c.tasks[i], input);
        TasksStay(c, c'.w);
      }
    case Abort(i) =>
    case Consume(_, _) =>
    case Handle(input) =>
      ConsumerQuiet(c.w, c.consumer, input);
      QuietOK(c.w, c'.w);
      TasksStay(c, c'.w);
    case AbortHandler =>
    case Tick(seconds) =>
      QuietOK(c.w, c'.w);
      TasksStay(c, c'.w);
  }

  lemma RidesTask(c: Config, i: nat)
    requires Rides.ConfigOK(c) && i < |c.tasks|
    ensures Rides.TaskOK(c.w, c.tasks[i]) && Rides.CriticalOK(c.w, c.tasks[i])
  {
  }

  // ---------- every run ----------

  lemma {:induction false} RunOK(actions: seq<Action>)
    ensures ConfigOK(Exec(Start, actions))
  {
    if actions != [] {
      hide Next, ConfigOK;
      RunOK(actions[..|actions| - 1]);
      NextOK(Exec(Start, actions[..|actions| - 1]), actions[|actions| - 1]);
    } else {
      Rides.StartOK();
    }
  }

  lemma {:induction false} RunContinues(c: Config, more: seq<Action>)
    requires ConfigOK(c)
    ensures ConfigOK(Exec(c, more)) && Continues(c.w, Exec(c, more).w)
    ensures Rides.Later(c.w, Exec(c, more).w)
  {
    hide Next, ConfigOK, Continues, Rides.Later;
    if more == [] {
      Reflexive(c);
    } else {
      var init := Exec(c, more[..|more| - 1]);
      RunContinues(c, more[..|more| - 1]);
      NextOK(init, more[|more| - 1]);
      Transitive(c.w, init.w, Exec(c, more).w);
    }
  }

  lemma Reflexive(c: Config)
    requires ConfigOK(c)
    ensures Continues(c.w, c.w) && Rides.Later(c.w, c.w)
  {
  }

  lemma Transitive(w1: World, w2: World, w3: World)
    requires Continues(w1, w2) && Continues(w2, w3) && Rides.Later(w1, w2) && Rides.Later(w2, w3)
    ensures Continues(w1, w3) && Rides.Later(w1, w3)
  {
  }

  // ---------- what this says of every run ----------

  /** A hit or a miss, the multiplier a request goes on with was computed from the counts of
      some call for the same cell whose write was less than 30 seconds old when it was
      served; and no entry outlives its write, however often it is read. */
  lemma ServedIsFresh(actions: seq<Action>, i: nat) returns (x: SurgeWrite)
    requires i < |Exec(Start, actions).tasks| && Exec(Start, actions).tasks[i].RequestSave?
    ensures var c := Exec(Start, actions); var t := c.tasks[i];
            x in c.w.writes && x.cell == t.trip.cell
            && t.multiplier == x.value == ComputeMultiplier(x.pending, x.free)
            && x.at <= t.servedAt < x.at + 30
  {
    hide Exec, ComputeMultiplier;
    RunOK(actions);
    var c := Exec(Start, actions);
    var t := c.tasks[i];
    assert TaskOK(c.w, t);
    var k :| 0 <= k < |c.w.writes|
             && FromWrite(Quotation(t.trip, t.multiplier, t.servedAt), c.w.writes[k]);
    x := c.w.writes[k];
    assert WriteOK(c.w, x);
  }

  lemma AlwaysReadable(actions: seq<Action>)
    ensures Readable(Exec(Start, actions).w.surge)
  {
    hide Exec, ComputeMultiplier, Print, Parse;
    RunOK(actions);
    var w := Exec(Start, actions).w;
    forall cell | cell in w.surge
      ensures Parse(w.surge[cell].text).Some?
    {
      assert EntryBacked(w, cell);
      var k :| 0 <= k < |w.writes| && EntryOf(w.surge[cell], cell, w.writes[k]);
      ParsePrint(w.writes[k].value);
    }
  }

  /** Reading the cache never fails to parse, and what it reads is less than 30 seconds old. */
  lemma CacheReadsParse(actions: seq<Action>, cell: Cell) returns (x: SurgeWrite)
    requires Live(Exec(Start, actions).w.surge, cell, Exec(Start, actions).w.now)
    ensures var w := Exec(Start, actions).w;
            x in w.writes && x.cell == cell && Lookup(w.surge, cell, w.now) == Some(x.value)
            && x.at <= w.now < x.at + 30
  {
    hide Exec, ComputeMultiplier, Print, Parse;
    RunOK(actions);
    var w := Exec(Start, actions).w;
    assert EntryBacked(w, cell);
    var k :| 0 <= k < |w.writes| && EntryOf(w.surge[cell], cell, w.writes[k]);
    x := w.writes[k];
    assert WriteOK(w, x);
    ParsePrint(x.value);
  }

  // ---------- whose trip a quote is of ----------

  predicate RideAsked(actions: seq<Action>, w: World, id: Id)
    requires id in w.rides
  {
    id in w.quotes && Asked(actions, w.rides[id].rider, w.quotes[id].trip)
  }

  predicate RidesAsked(actions: seq<Action>, w: World) {
    forall id :: id in w.rides ==> RideAsked(actions, w, id)
  }

  /** The save of a request puts down the quote of its trip. */
  lemma SavesItsQuote(w: World, t: Task, input: Input)
    requires t.RequestSave? && Saves.SavedRow(w, t, input).Some?
    ensures var r := Saves.SavedRow(w, t, input).value;
            r.rider == t.rider && r.id in StepTask(w, t, input).0.quotes
            && StepTask(w, t, input).0.quotes[r.id].trip == t.trip
  {
    hide FareCents;
  }

  lemma NextAsked(actions: seq<Action>, c: Config, a: Action, id: Id)
    requires ConfigOK(c) && TasksKnown(actions, c.tasks) && RidesAsked(actions, c.w) && id in Next(c, a).w.rides
    ensures RideAsked(actions + [a], Next(c, a).w, id)
  {
    hide Next, ConfigOK, Asked, Saves.SavedBy, TaskKnown;
    var w' := Next(c, a).w;
    NextOK(c, a);
    if id in c.w.rides {
      assert RideAsked(actions, c.w, id);
      AskedStays(actions, a, c.w.rides[id].rider, c.w.quotes[id].trip);
    } else {
      Saves.NextWrites(c, a);
      NewRideAsked(actions, c, a);
    }
  }

  /** A ride that was not there before is a request's, of the trip the request asked for. */
  lemma NewRideAsked(actions: seq<Action>, c: Config, a: Action)
    requires ConfigOK(c) && TasksKnown(actions, c.tasks)
    requires Saves.SavedBy(c, a).Some? && Saves.SavedBy(c, a).value.id !in c.w.rides
    ensures var r := Saves.SavedBy(c, a).value; var w' := Next(c, a).w;
            r.id in w'.quotes && Asked(actions + [a], r.rider, w'.quotes[r.id].trip)
  {
    hide StepTask, Critical, Asked, Saves.SavedRow, ConfigOK, FreeKnown, Facts, Was;
    var t := c.tasks[a.task];
    OnlyRequestsAdd(c, a.task, a.input);
    SavesItsQuote(c.w, t, a.input);
    assert TaskKnown(actions, t);
    AskedStays(actions, a, t.rider, t.trip);
  }

  lemma OnlyRequestsAdd(c: Config, i: nat, input: Input)
    requires ConfigOK(c) && i < |c.tasks|
    requires var r := Saves.SavedRow(c.w, c.tasks[i], input); r.Some? && r.value.id !in c.w.rides
    ensures c.tasks[i].RequestSave?
  {
    hide FareCents, CacheOK, FaresOK, SameTrip, Consistent, Rides.DriverCommitted;
    assert Rides.TaskOK(c.w, c.tasks[i]) && Rides.CriticalOK(c.w, c.tasks[i]);
  }

  lemma {:induction false} RunAsked(actions: seq<Action>)
    ensures RidesAsked(actions, Exec(Start, actions).w)
  {
    if actions != [] {
      hide Next, ConfigOK, RideAsked, TasksKnown, WorldKnown;
      var init, a := actions[..|actions| - 1], actions[|actions| - 1];
      var c := Exec(Start, init);
      RunAsked(init);
      RunOK(init);
      RunKnown(init);
      assert init + [a] == actions;
      forall id | id in Next(c, a).w.rides
        ensures RideAsked(actions, Next(c, a).w, id)
      {
        NextAsked(init, c, a, id);
      }
    }
  }

  // ---------- fare provenance ----------

  /** Fare provenance: every stored ride's recorded quote is of the trip its own rider asked
      for, from the row's pickup to its dropoff; the row's fare is 2.00 and 1.50 a kilometre of
      that trip, to within half a cent, times one multiplier between 1.00 and 3.00 that the
      surge cache served for the trip's cell less than 30 seconds after it was computed, from
      counts taken during the run (MachineHistory.SurgeProvenance). No later write, stale or
      not, changes the fare, and any fare ever charged equals it. */
  lemma FareProvenance(actions: seq<Action>, more: seq<Action>, id: Id)
    returns (q: Quotation, x: SurgeWrite, k: nat, cents: nat)
    requires id in Exec(Start, actions).w.rides
    ensures var w := Exec(Start, actions).w; var r := w.rides[id];
            id in w.quotes && q == w.quotes[id]
            && k < |actions| && AskedAt(actions[k], r.rider, q.trip)
            && q.trip.pickup == r.pickup && q.trip.dropoff == r.dropoff && ValidTrip(q.trip)
            && x in w.writes && x.cell == q.trip.cell && x.at <= q.servedAt < x.at + 30 && WriteKnown(actions, x)
            && q.multiplier == x.value == ComputeMultiplier(x.pending, x.free)
            && 100 <= Hundredths(q.multiplier) <= 300
    ensures Exec(Start, actions).w.rides[id].estimatedFare == Some(cents)
    ensures cents == FareCents(q.trip.distance, q.multiplier)
    ensures var d, m := q.trip.distance, q.multiplier; var one := d.den * Pow10(m.places);
            -(one as int) <= 2 * ((200 * d.den + 150 * d.num) * m.coeff - cents * one) < one
    ensures var rides' := Exec(Start, actions + more).w.rides;
            id in rides' && rides'[id].estimatedFare == Some(cents)
            && (rides'[id].fare.Some? ==> rides'[id].fare == Some(cents))
  {
    hide Exec, ComputeMultiplier, FareCents, Hundredths, Rides.Later, AskedAt, WriteKnown, SameTrip;
    var w := Exec(Start, actions).w;
    q, x := QuoteFromWrite(actions, id);
    k :| 0 <= k < |actions| && AskedAt(actions[k], w.rides[id].rider, q.trip);
    cents := FareCents(q.trip.distance, q.multiplier);
    MultiplierInRange(x.pending, x.free);
    FareWithinHalfCent(q.trip.distance, q.multiplier);
    Rides.TripsNeverChange(actions, more, id);
    SameFare(actions, more, id);
  }

  lemma QuoteFromWrite(actions: seq<Action>, id: Id) returns (q: Quotation, x: SurgeWrite)
    requires id in Exec(Start, actions).w.rides
    ensures var w := Exec(Start, actions).w;
            id in w.quotes && q == w.quotes[id] && Quoted(w.rides[id], q) && Asked(actions, w.rides[id].rider, q.trip)
            && x in w.writes && FromWrite(q, x) && x.value == ComputeMultiplier(x.pending, x.free)
            && WriteKnown(actions, x)
  {
    hide Exec, ComputeMultiplier, Quoted, Asked, WriteKnown, RideKnown;
    var w := Exec(Start, actions).w;
    RunOK(actions);
    RunAsked(actions);
    RunKnown(actions);
    assert RideOK(w, id) && RideAsked(actions, w, id);
    q := w.quotes[id];
    var j :| 0 <= j < |w.writes| && FromWrite(q, w.writes[j]);
    x := w.writes[j];
    assert WriteOK(w, x);
  }

  lemma SameFare(actions: seq<Action>, more: seq<Action>, id: Id)
    requires id in Exec(Start, actions).w.rides
    ensures var rides' := Exec(Start, actions + more).w.rides;
            id in rides' && rides'[id].estimatedFare == Exec(Start, actions).w.rides[id].estimatedFare
  {
    hide Exec;
    Rides.TripsNeverChange(actions, more, id);
  }

  /** Every request of the run comes with the distance and the cell that geography gives its
      points. */
  predicate OnTheMap(actions: seq<Action>, km: (Point, Point) -> Km, cellOf: Point -> Cell) {
    forall k :: 0 <= k < |actions| && actions[k].Spawn? && actions[k].call.CallRequest? ==>
      var trip := actions[k].call.trip;
      trip.distance == km(trip.pickup, trip.dropoff) && trip.cell == cellOf(trip.pickup)
  }

  /** So whatever distance and cell are, as functions of points, a stored ride's fare is that
      of the distance between its own pickup and dropoff, at a multiplier computed for the
      cell of its own pickup. */
  lemma FareOfThePoints(actions: seq<Action>, id: Id, km: (Point, Point) -> Km, cellOf: Point -> Cell)
    returns (x: SurgeWrite)
    requires OnTheMap(actions, km, cellOf) && id in Exec(Start, actions).w.rides
    ensures var w := Exec(Start, actions).w; var r := w.rides[id]; var d := km(r.pickup, r.dropoff);
            ValidKm(d) && x in w.writes && x.cell == cellOf(r.pickup)
            && r.estimatedFare == Some(FareCents(d, ComputeMultiplier(x.pending, x.free)))
  {
    hide Exec, ComputeMultiplier, FareCents;
    var q, y, k, cents := FareProvenance(actions, [], id);
    x := y;
  }
}

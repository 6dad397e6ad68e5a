/** Two serial runs that book one driver twice, one for each of the two undisciplined calls:
    neither restriction of SerialRides.ExclusivityExactlyWhen can be dropped. */
module SerialWitnesses {
  import opened Models
  import opened Surge
  import opened SurgeText
  import opened Fares
  import opened Pricing
  import opened Dispatch
  import opened Worlds
  import opened Serial

  const Here := Point(0.0, 0.0)

  /** A trip that ends where it begins, so of no length. The pickups lie whole degrees apart:
      each has its own surge cell, and a driver located at Here is in reach of none. */
  function Hop(cell: Cell): Trip {
    Trip(Point(cell as real, 0.0), Point(cell as real, 0.0), Km(0, 1), cell)
  }

  /** Driver 0 and riders 1, 2, 3; the driver is online. */
  const Opening: seq<Command> :=
    [] + [DoSignUp("d", 0)] + [DoSignUp("a", 1)] + [DoSignUp("b", 2)] + [DoSignUp("c", 3)]
    + [DoRegisterDriver(0, "car", "plate")] + [DoOnline(0, Here)]

  /** The driver accepts one ride, goes online again and accepts another. */
  const OnlineWhileBusy: seq<Command> :=
    Opening + [DoRequest(1, Hop(1), [], 11)] + [DoAccept(0, 11)]
    + [DoOnline(0, Here)]
    + [DoRequest(2, Hop(2), [], 12)] + [DoAccept(0, 12)]

  /** Rider 1 cancels, and the driver takes another ride. */
  const CancelledOnce: seq<Command> :=
    Opening + [DoRequest(1, Hop(1), [], 11)] + [DoAccept(0, 11)] + [DoCancel(1, 11)]
    + [DoRequest(2, Hop(2), [], 12)] + [DoAccept(0, 12)]

  /** Rider 1 cancels the same ride again, and the driver takes a third one. */
  const CancelledTwice: seq<Command> :=
    CancelledOnce + [DoCancel(1, 11)] + [DoRequest(3, Hop(3), [], 13)] + [DoAccept(0, 13)]

  lemma Next(run: seq<Command>, c: Command)
    ensures After(run + [c]) == if Possible(After(run), c) then Serve(After(run), c).0 else After(run)
  {
    assert (run + [c])[..|run|] == run;
  }

  /** A ride's rider, driver and status. */
  datatype Look = Look(rider: Id, driver: Option<Id>, status: RideStatus)

  /** What the scenes below look at. */
  predicate Scene(w: World, free: bool, rides: map<Id, Look>) {
    && {0, 1, 2, 3} <= w.users.Keys && (forall u :: u in {1, 2, 3} ==> w.users[u].role == RIDER)
    && w.drivers.Keys == {0} && w.drivers[0].isAvailable == free && w.drivers[0].userId == 0
    && w.rides.Keys == rides.Keys
    && (forall id :: id in rides ==>
          w.rides[id].id == id && rides[id] == Look(w.rides[id].rider, w.rides[id].driver, w.rides[id].status))
    && (forall cell :: cell in w.surge ==> 10 + cell in rides)
  }

  lemma Requested(run: seq<Command>, free: bool, rides: map<Id, Look>, rider: Id, cell: Cell)
    requires Scene(After(run), free, rides) && rider in {1, 2, 3} && 10 + cell !in rides
    requires forall id :: id in rides && rides[id].rider == rider ==> !Active(rides[id].status)
    ensures Scene(After(run + [DoRequest(rider, Hop(cell), [], 10 + cell)]), free,
                  rides[10 + cell := Look(rider, None, REQUESTED)])
  {
    hide After, RequestRide;
    Next(run, DoRequest(rider, Hop(cell), [], 10 + cell));
    RequestedHere(After(run), free, rides, rider, cell);
  }

  lemma RequestedHere(w: World, free: bool, rides: map<Id, Look>, rider: Id, cell: Cell)
    requires Scene(w, free, rides) && rider in {1, 2, 3} && 10 + cell !in rides
    requires forall id :: id in rides && rides[id].rider == rider ==> !Active(rides[id].status)
    ensures Scene(RequestRide(w, rider, Hop(cell), [], 10 + cell).0, free,
                  rides[10 + cell := Look(rider, None, REQUESTED)])
  {
    hide ComputeMultiplier, FareCents, Lookup, PendingNear, KeepAvailable, Print;
    assert !HasActiveRide(w, rider);
    assert !Live(w.surge, cell, w.now);
  }

  lemma Accepted0(run: seq<Command>, rides: map<Id, Look>, ride: Id)
    requires Scene(After(run), true, rides) && ride in rides && rides[ride].status == REQUESTED
    ensures Scene(After(run + [DoAccept(0, ride)]), false, rides[ride := Look(rides[ride].rider, Some(0), MATCHED)])
  {
    Next(run, DoAccept(0, ride));
  }

  lemma Cancelled1(run: seq<Command>, free: bool, rides: map<Id, Look>, ride: Id)
    requires Scene(After(run), free, rides) && ride in rides && rides[ride].rider == 1
    requires rides[ride].driver == Some(0) && rides[ride].status in {MATCHED, CANCELLED}
    ensures Scene(After(run + [DoCancel(1, ride)]), true, rides[ride := Look(1, Some(0), CANCELLED)])
  {
    hide After;
    Next(run, DoCancel(1, ride));
  }

  lemma Online0(run: seq<Command>, free: bool, rides: map<Id, Look>)
    requires Scene(After(run), free, rides)
    ensures Scene(After(run + [DoOnline(0, Here)]), true, rides)
  {
    Next(run, DoOnline(0, Here));
  }

  /** A sign-up under a new name. */
  lemma SignedUp(run: seq<Command>, username: string, id: Id)
    requires id !in After(run).users && !UsernameTaken(After(run), username)
    ensures var w, w' := After(run), After(run + [DoSignUp(username, id)]);
            w'.users == w.users[id := User(id, username, RIDER, None, 0)]
            && w'.drivers == w.drivers && w'.rides == w.rides && w'.surge == w.surge
  {
    Next(run, DoSignUp(username, id));
  }

  lemma AtStart()
    ensures After([]) == EmptyWorld
  {
  }

  lemma AfterSignUps(r4: seq<Command>)
    requires r4 == [] + [DoSignUp("d", 0)] + [DoSignUp("a", 1)] + [DoSignUp("b", 2)] + [DoSignUp("c", 3)]
    ensures var w := After(r4);
            w.users.Keys == {0, 1, 2, 3} && w.drivers == map[] && w.rides == map[] && w.surge == map[]
            && (forall u :: u in {1, 2, 3} ==> w.users[u].role == RIDER) && w.users[0].id == 0
  {
    hide After;
    var r0: seq<Command> := [];
    assert After(r0) == EmptyWorld by { AtStart(); }
    assert "a"[0] != "d"[0] && "b"[0] != "d"[0] && "c"[0] != "d"[0];
    assert "b"[0] != "a"[0] && "c"[0] != "a"[0] && "c"[0] != "b"[0];
    SignedUp(r0, "d", 0);
    SignedUp(r0 + [DoSignUp("d", 0)], "a", 1);
    SignedUp(r0 + [DoSignUp("d", 0)] + [DoSignUp("a", 1)], "b", 2);
    SignedUp(r0 + [DoSignUp("d", 0)] + [DoSignUp("a", 1)] + [DoSignUp("b", 2)], "c", 3);
  }

  lemma DriverRegistered(w: World)
    requires w.users.Keys == {0, 1, 2, 3} && w.drivers == map[] && w.rides == map[] && w.surge == map[]
    requires forall u :: u in {1, 2, 3} ==> w.users[u].role == RIDER
    requires w.users[0].id == 0
    ensures Scene(RegisterDriver(w, 0, "car", "plate").0, false, map[])
  {
  }

  lemma AfterOpening()
    ensures Scene(After(Opening), true, map[])
  {
    var r4 := [] + [DoSignUp("d", 0)] + [DoSignUp("a", 1)] + [DoSignUp("b", 2)] + [DoSignUp("c", 3)];
    AfterSignUps(r4);
    Next(r4, DoRegisterDriver(0, "car", "plate"));
    DriverRegistered(After(r4));
    Online0(r4 + [DoRegisterDriver(0, "car", "plate")], false, map[]);
  }

  /** Going online while busy: the driver ends up with two MATCHED rides. */
  lemma OnlineRestrictionNeeded()
    ensures Holds(After(OnlineWhileBusy).rides, 0, 11) && Holds(After(OnlineWhileBusy).rides, 0, 12)
  {
    hide After;
    AfterOpening();
    var s2 := map[11 := Look(1, Some(0), MATCHED)];
    var r1 := Opening + [DoRequest(1, Hop(1), [], 11)];
    var r2 := r1 + [DoAccept(0, 11)];
    var r3 := r2 + [DoOnline(0, Here)];
    var r4 := r3 + [DoRequest(2, Hop(2), [], 12)];
    Requested(Opening, true, map[], 1, 1);
    Accepted0(r1, map[11 := Look(1, None, REQUESTED)], 11);
    Online0(r2, false, s2);
    Requested(r3, true, s2, 2, 2);
    Accepted0(r4, s2[12 := Look(2, None, REQUESTED)], 12);
  }

  const OneHeld: map<Id, Look> := map[11 := Look(1, Some(0), CANCELLED), 12 := Look(2, Some(0), MATCHED)]

  lemma AfterCancelledOnce()
    ensures Scene(After(CancelledOnce), false, OneHeld)
  {
    hide After;
    AfterOpening();
    var s3 := map[11 := Look(1, Some(0), CANCELLED)];
    var r1 := Opening + [DoRequest(1, Hop(1), [], 11)];
    var r2 := r1 + [DoAccept(0, 11)];
    var r3 := r2 + [DoCancel(1, 11)];
    var r4 := r3 + [DoRequest(2, Hop(2), [], 12)];
    Requested(Opening, true, map[], 1, 1);
    Accepted0(r1, map[11 := Look(1, None, REQUESTED)], 11);
    Cancelled1(r2, false, map[11 := Look(1, Some(0), MATCHED)], 11);
    Requested(r3, true, s3, 2, 2);
    Accepted0(r4, s3[12 := Look(2, None, REQUESTED)], 12);
    assert s3[12 := Look(2, None, REQUESTED)][12 := Look(2, Some(0), MATCHED)] == OneHeld;
  }

  /** Cancelling a cancelled ride: the driver ends up with two MATCHED rides. */
  lemma CancelRestrictionNeeded()
    ensures Holds(After(CancelledTwice).rides, 0, 12) && Holds(After(CancelledTwice).rides, 0, 13)
  {
    hide After;
    AfterCancelledOnce();
    var r6 := CancelledOnce + [DoCancel(1, 11)];
    var r7 := r6 + [DoRequest(3, Hop(3), [], 13)];
    Cancelled1(CancelledOnce, false, OneHeld, 11);
    assert OneHeld[11 := Look(1, Some(0), CANCELLED)] == OneHeld;
    Requested(r6, true, OneHeld, 3, 3);
    Accepted0(r7, OneHeld[13 := Look(3, None, REQUESTED)], 13);
  }
}

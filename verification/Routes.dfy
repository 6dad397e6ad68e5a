/** From route to stores: every call that the guards admit, run without interruption through the
    steps of the machine, keeps the promise that Contracts writes out for it, for the user the
    token names. */
module Routes {
  import opened Models
  import opened Dispatch
  import opened Worlds
  import opened Machine
  import opened Uninterrupted
  import Contracts
  import Serial
  import SerialCalls

  /** What the outside supplies is possible: new UUIDs are new, the search gives an answer it
      can give, the query for the driver's ride finds one if there is one, rows have their keys. */
  predicate Ready(w: World, call: Call, input: Input) {
    match call
    case CallSignUp(_) => input.uuid !in w.users
    case CallRegisterDriver(_, user, _, _) => user in w.users && w.users[user].id == user
    case CallRequest(_, _, _) => input.uuid !in w.rides && Answers(w.located.Keys, 3.0, input.reply)
    case CallLocation(_, user, _) =>
      if input.ids == [] then forall id :: id in w.rides ==> !Contracts.Drives(w, user, id)
      else Contracts.Drives(w, user, input.ids[0])
    case _ => true
  }

  /** The promise of the call, with the caller as rider, driver or user. */
  predicate Promise(w: World, w': World, o: Outcome, call: Call, input: Input)
    requires Admit(w, call).Some?
  {
    match call
    case CallSignUp(username) => Contracts.SignUp(w, w', o, username, input.uuid)
    case CallLogin(user) => Contracts.Login(w, w', o, w.users[user].username, true)
    case CallSwitch(token, _, mode) => Contracts.SwitchMode(w, w', o, token.username, mode)
    case CallRegisterDriver(_, user, vehicle, plate) => Contracts.RegisterDriver(w, w', o, user, vehicle, plate)
    case CallRequest(_, user, trip) => Contracts.RequestRide(w, w', o, user, trip, input.reply, input.uuid)
    case CallAccept(_, user, ride) => Contracts.AcceptRide(w, w', o, ride, user)
    case CallStart(_, user, ride) => Contracts.StartRide(w, w', o, ride, user)
    case CallComplete(_, user, ride) => Contracts.CompleteRide(w, w', o, ride, user)
    case CallCancel(_, user, ride) => Contracts.CancelRide(w, w', o, ride, user)
    case CallOnline(_, user, place) => Contracts.GoOnline(w, w', o, user, place)
    case CallOffline(_, user) => Contracts.GoOffline(w, w', o, user)
    case CallLocation(_, user, place) =>
      Contracts.UpdateLocation(w, w', o, user, place, if input.ids == [] then None else Some(input.ids[0]))
    case CallRate(_, user, ride, score) => Contracts.Rate(w, w', o, ride, user, score)
    case CallRetry => true
  }

  /** An accept that waited has the lock. */
  function Entered(t: Task): Task {
    if t.AcceptWait? then AcceptReadRide(t.ride, t.driver) else t
  }

  lemma HeldIsDriven(w: World, user: Id, ids: seq<Id>)
    ensures FirstHeld(w, user, First(ids)) <==>
            if ids == [] then forall id :: id in w.rides ==> !Contracts.Drives(w, user, id)
            else Contracts.Drives(w, user, ids[0])
  {
    assert forall id :: Holds(w.rides, user, id) <==> Contracts.Drives(w, user, id);
  }

  lemma TokenRoutes(w: World, call: Call, input: Input)
    requires Admit(w, call).Some? && (call.CallLogin? || call.CallSwitch?)
    ensures var (w', t') := Alone(w, Admit(w, call).value, input);
            t'.Done? && Promise(w, w', t'.outcome, call, input)
  {
    hide Alone;
    LoginAlone(w, call.user, input);
    SwitchAlone(w, call.user, input);
    assert Contracts.Named(w, call.user, w.users[call.user].username);
    if call.CallSwitch? && call.mode == RIDER {
      LastStep(w, Issue(call.token.username, RIDER), input);
    }
  }

  lemma RideRoutes(w: World, call: Call, input: Input)
    requires Admit(w, call).Some? && Ready(w, call, input)
    requires call.CallRequest? || call.CallAccept? || call.CallStart? || call.CallComplete? || call.CallCancel?
    ensures var (w', t') := Alone(w, Entered(Admit(w, call).value), input);
            t'.Done? && Promise(w, w', t'.outcome, call, input)
  {
    hide Alone, Authenticated, Answers, Serial.RequestRide, Serial.AcceptRide, Serial.StartRide, Serial.CompleteRide,
      Serial.CancelRide, Contracts.RequestRide, Contracts.AcceptRide, Contracts.StartRide, Contracts.CompleteRide,
      Contracts.CancelRide;
    match call
    case CallRequest(_, user, trip) =>
      RequestAlone(w, user, trip, input);
      SerialCalls.RequestRideKept(w, user, trip, input.reply, input.uuid);
    case CallAccept(_, user, ride) =>
      AcceptAlone(w, ride, user, input);
      SerialCalls.AcceptRideKept(w, ride, user);
    case CallStart(_, user, ride) =>
      StartAlone(w, ride, user, input);
      SerialCalls.StartRideKept(w, ride, user);
    case CallComplete(_, user, ride) =>
      CompleteAlone(w, ride, user, input);
      SerialCalls.CompleteRideKept(w, ride, user);
    case CallCancel(_, user, ride) =>
      CancelAlone(w, ride, user, input);
      SerialCalls.CancelRideKept(w, ride, user);
  }

  lemma OtherRoutes(w: World, call: Call, input: Input)
    requires Admit(w, call).Some? && Ready(w, call, input)
    requires call.CallSignUp? || call.CallRegisterDriver? || call.CallOnline? || call.CallOffline?
             || call.CallLocation? || call.CallRate?
    ensures var (w', t') := Alone(w, Admit(w, call).value, input);
            t'.Done? && Promise(w, w', t'.outcome, call, input)
  {
    hide Alone, Authenticated, Serial.SignUp, Serial.RegisterDriver, Serial.GoOnline, Serial.GoOffline,
      Serial.UpdateLocation, Serial.Rate, Contracts.SignUp, Contracts.RegisterDriver, Contracts.GoOnline,
      Contracts.GoOffline, Contracts.UpdateLocation, Contracts.Rate, Contracts.Drives, FirstHeld;
    match call
    case CallSignUp(username) =>
      SignUpAlone(w, username, input);
      SerialCalls.SignUpKept(w, username, input.uuid);
    case CallRegisterDriver(_, user, vehicle, plate) =>
      RegisterAlone(w, user, vehicle, plate, input);
      SerialCalls.RegisterDriverKept(w, user, vehicle, plate);
    case CallOnline(_, user, place) =>
      OnlineAlone(w, user, place, input);
      SerialCalls.GoOnlineKept(w, user, place);
    case CallOffline(_, user) =>
      OfflineAlone(w, user, input);
      SerialCalls.GoOfflineKept(w, user);
    case CallLocation(_, user, place) =>
      HeldIsDriven(w, user, input.ids);
      LocationAlone(w, user, place, input);
      SerialCalls.UpdateLocationKept(w, user, place, First(input.ids));
    case CallRate(_, user, ride, score) =>
      RateAlone(w, ride, user, score, input);
      SerialCalls.RateKept(w, ride, user, score);
  }

  /** Every admitted call but the retry job's, in every world: its steps, if nothing comes
      between, end and keep the call's promise. */
  lemma EveryRouteKeepsItsPromise(w: World, call: Call, input: Input)
    requires Admit(w, call).Some? && Ready(w, call, input) && !call.CallRetry?
    ensures var (w', t') := Alone(w, Entered(Admit(w, call).value), input);
            t'.Done? && Promise(w, w', t'.outcome, call, input)
  {
    hide Alone, Promise, Ready, Authenticated;
    if call.CallLogin? || call.CallSwitch? {
      TokenRoutes(w, call, input);
    } else if call.CallRequest? || call.CallAccept? || call.CallStart? || call.CallComplete? || call.CallCancel? {
      RideRoutes(w, call, input);
    } else {
      OtherRoutes(w, call, input);
    }
  }

  /** So does every serial call of a serial run. */
  lemma ServeKept(w: World, c: Serial.Command)
    requires Serial.Possible(w, c)
    ensures var (w', o) := Serial.Serve(w, c);
            match c
            case DoSignUp(username, uuid) => Contracts.SignUp(w, w', o, username, uuid)
            case DoRegisterDriver(user, vehicle, plate) => Contracts.RegisterDriver(w, w', o, user, vehicle, plate)
            case DoOnline(user, at) => Contracts.GoOnline(w, w', o, user, at)
            case DoOffline(user) => Contracts.GoOffline(w, w', o, user)
            case DoLocation(user, at, held) => Contracts.UpdateLocation(w, w', o, user, at, held)
            case DoRequest(user, trip, reply, uuid) => Contracts.RequestRide(w, w', o, user, trip, reply, uuid)
            case DoAccept(user, ride) => Contracts.AcceptRide(w, w', o, ride, user)
            case DoStart(user, ride) => Contracts.StartRide(w, w', o, ride, user)
            case DoComplete(user, ride) => Contracts.CompleteRide(w, w', o, ride, user)
            case DoCancel(user, ride) => Contracts.CancelRide(w, w', o, ride, user)
            case DoRate(user, ride, score) => Contracts.Rate(w, w', o, ride, user, score)
            case DoWait(seconds) => o == Finished && w' == w.(now := w.now + seconds)
  {
    hide Serial.SignUp, Serial.RegisterDriver, Serial.GoOnline, Serial.GoOffline, Serial.UpdateLocation,
      Serial.RequestRide, Serial.AcceptRide, Serial.StartRide, Serial.CompleteRide, Serial.CancelRide, Serial.Rate,
      Contracts.SignUp, Contracts.RegisterDriver, Contracts.GoOnline, Contracts.GoOffline, Contracts.UpdateLocation,
      Contracts.RequestRide, Contracts.AcceptRide, Contracts.StartRide, Contracts.CompleteRide, Contracts.CancelRide,
      Contracts.Rate;
    match c
    case DoSignUp(username, uuid) => SerialCalls.SignUpKept(w, username, uuid);
    case DoRegisterDriver(user, vehicle, plate) => SerialCalls.RegisterDriverKept(w, user, vehicle, plate);
    case DoOnline(user, at) => SerialCalls.GoOnlineKept(w, user, at);
    case DoOffline(user) => SerialCalls.GoOfflineKept(w, user);
    case DoLocation(user, at, held) => SerialCalls.UpdateLocationKept(w, user, at, held);
    case DoRequest(user, trip, reply, uuid) => SerialCalls.RequestRideKept(w, user, trip, reply, uuid);
    case DoAccept(user, ride) => SerialCalls.AcceptRideKept(w, ride, user);
    case DoStart(user, ride) => SerialCalls.StartRideKept(w, ride, user);
    case DoComplete(user, ride) => SerialCalls.CompleteRideKept(w, ride, user);
    case DoCancel(user, ride) => SerialCalls.CancelRideKept(w, ride, user);
    case DoRate(user, ride, score) => SerialCalls.RateKept(w, ride, user, score);
    case DoWait(_) =>
  }
}

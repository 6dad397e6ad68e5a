/** Nearby search, offer fan-out and offer retraction (dispatch.py, kafka_consumer.py:87-122).

    The consumer is one serial task and only its handlers touch the dispatched: sets, so the
    sets are determined by the sequence of handled events. Time is in seconds. */
module Dispatch {
  import opened Models

  const DISPATCHED_TTL_SECONDS: nat := 5 * 60
  const MAX_RESULTS: nat := 20
  const DEFAULT_SEARCH_RADIUS_KM: real := 5.0

  // ---------- nearby search ----------

  datatype Hit = Hit(driver: Id, distance: real)

  predicate InReply(reply: seq<Hit>, d: Id) {
    exists i :: 0 <= i < |reply| && reply[i].driver == d
  }

  predicate Ascending(hits: seq<Hit>) {
    forall i, j :: 0 <= i < j < |hits| ==> hits[i].distance <= hits[j].distance
  }

  predicate NoRepeats(hits: seq<Hit>) {
    forall i, j :: 0 <= i < j < |hits| ==> hits[i].driver != hits[j].driver
  }

  /** What GEOSEARCH ... ASC COUNT 20 answers, given every located driver's distance. */
  predicate GeoReply(located: map<Id, real>, radius: real, reply: seq<Hit>) {
    && NoRepeats(reply) && Ascending(reply) && |reply| <= MAX_RESULTS
    && (forall i :: 0 <= i < |reply| ==>
          reply[i].driver in located && reply[i].distance == located[reply[i].driver] <= radius)
    && (forall d :: d in located && located[d] <= radius && !InReply(reply, d) ==>
          |reply| == MAX_RESULTS && forall i :: 0 <= i < |reply| ==> reply[i].distance <= located[d])
  }

  /** An answer that GEOSEARCH can give when these drivers are located, wherever they are. */
  predicate Answers(located: set<Id>, radius: real, reply: seq<Hit>) {
    && NoRepeats(reply) && Ascending(reply) && |reply| <= MAX_RESULTS
    && forall i :: 0 <= i < |reply| ==> reply[i].driver in located && reply[i].distance <= radius
  }

  /** It is one exactly when some distances of the located drivers make it the answer. */
  lemma AnswersExactlyWhen(located: set<Id>, radius: real, reply: seq<Hit>)
    ensures Answers(located, radius, reply) <==>
            exists distances: map<Id, real> :: distances.Keys == located && GeoReply(distances, radius, reply)
  {
    if Answers(located, radius, reply) {
      var distances := map d | d in located :: DistanceIn(reply, d, radius + 1.0);
      forall i | 0 <= i < |reply|
        ensures DistanceIn(reply, reply[i].driver, radius + 1.0) == reply[i].distance
      {
        FoundAt(reply, i, radius + 1.0);
      }
      forall d | d in located && !InReply(reply, d)
        ensures distances[d] > radius
      {
        NotFound(reply, d, radius + 1.0);
      }
      assert distances.Keys == located && GeoReply(distances, radius, reply);
    }
  }

  /** The distance the reply gives for the driver, or another one. */
  function DistanceIn(reply: seq<Hit>, d: Id, other: real): real {
    if reply == [] then other
    else if reply[0].driver == d then reply[0].distance
    else DistanceIn(reply[1..], d, other)
  }

  lemma {:induction false} FoundAt(reply: seq<Hit>, i: nat, other: real)
    requires NoRepeats(reply) && i < |reply|
    ensures DistanceIn(reply, reply[i].driver, other) == reply[i].distance
  {
    if i > 0 {
      FoundAt(reply[1..], i - 1, other);
    }
  }

  lemma {:induction false} NotFound(reply: seq<Hit>, d: Id, other: real)
    requires !InReply(reply, d)
    ensures DistanceIn(reply, d, other) == other
  {
    if reply != [] {
      assert reply[0].driver != d;
      forall i | 0 <= i < |reply[1..]|
        ensures reply[1..][i].driver != d
      {
        assert reply[1..][i] == reply[i + 1];
      }
      NotFound(reply[1..], d, other);
    }
  }

  /** The comprehension over the reply zipped with SMISMEMBER. */
  function KeepAvailable(reply: seq<Hit>, available: set<Id>): seq<Hit> {
    if reply == [] then []
    else
      var last := reply[|reply| - 1];
      KeepAvailable(reply[..|reply| - 1], available) + if last.driver in available then [last] else []
  }

  lemma {:induction false} KeptMembers(reply: seq<Hit>, available: set<Id>, h: Hit)
    ensures h in KeepAvailable(reply, available) <==> h in reply && h.driver in available
  {
    if reply != [] {
      var init := reply[..|reply| - 1];
      KeptMembers(init, available, h);
      assert reply == init + [reply[|reply| - 1]];
    }
  }

  /** As many are kept as there are hits of available drivers. */
  lemma {:induction false} KeptCount(reply: seq<Hit>, available: set<Id>)
    ensures |KeepAvailable(reply, available)| == |set i | 0 <= i < |reply| && reply[i].driver in available|
  {
    var kept := set i | 0 <= i < |reply| && reply[i].driver in available;
    if reply == [] {
      assert kept == {};
    } else {
      var n := |reply| - 1;
      KeptCount(reply[..n], available);
      var before := set i | 0 <= i < n && reply[..n][i].driver in available;
      assert kept == before + if reply[n].driver in available then {n} else {};
    }
  }

  lemma {:induction false} KeptOrder(reply: seq<Hit>, available: set<Id>)
    requires NoRepeats(reply) && Ascending(reply)
    ensures NoRepeats(KeepAvailable(reply, available)) && Ascending(KeepAvailable(reply, available))
    ensures |KeepAvailable(reply, available)| <= |reply|
  {
    if reply != [] {
      var init, last := reply[..|reply| - 1], reply[|reply| - 1];
      KeptOrder(init, available);
      var kept := KeepAvailable(init, available);
      forall i | 0 <= i < |kept|
        ensures kept[i].driver != last.driver && kept[i].distance <= last.distance
      {
        KeptMembers(init, available, kept[i]);
      }
    }
  }

  function InRange(located: map<Id, real>, radius: real): set<Id> {
    set d | d in located && located[d] <= radius
  }

  function DriversOf(reply: seq<Hit>): set<Id> {
    if reply == [] then {} else DriversOf(reply[..|reply| - 1]) + {reply[|reply| - 1].driver}
  }

  lemma {:induction false} InDriversOf(reply: seq<Hit>, d: Id)
    ensures d in DriversOf(reply) <==> InReply(reply, d)
  {
    if reply != [] {
      var n := |reply| - 1;
      InDriversOf(reply[..n], d);
      if InReply(reply[..n], d) {
        var i :| 0 <= i < n && reply[..n][i].driver == d;
        assert reply[i].driver == d;
      }
      if InReply(reply, d) && d != reply[n].driver {
        var i :| 0 <= i < |reply| && reply[i].driver == d;
        assert reply[..n][i].driver == d;
      }
    }
  }

  lemma {:induction false} CountDrivers(reply: seq<Hit>)
    requires NoRepeats(reply)
    ensures |DriversOf(reply)| == |reply|
  {
    if reply != [] {
      var n := |reply| - 1;
      CountDrivers(reply[..n]);
      InDriversOf(reply[..n], reply[n].driver);
    }
  }

  /** The search returns, nearest first and without repeats, at most 20 drivers: the available
      ones among the 20 nearest located ones; when at most 20 are in range, all available ones in range. */
  lemma NearbySearch(located: map<Id, real>, radius: real, reply: seq<Hit>, available: set<Id>)
    requires GeoReply(located, radius, reply)
    ensures var found := KeepAvailable(reply, available);
            Ascending(found) && NoRepeats(found) && |found| <= 20
            && (forall d :: InReply(found, d) <==> InReply(reply, d) && d in available)
            && (|InRange(located, radius)| <= 20 ==>
                  forall d :: InReply(found, d) <==> d in InRange(located, radius) && d in available)
  {
    KeptOrder(reply, available);
    forall d
      ensures InReply(KeepAvailable(reply, available), d) <==> InReply(reply, d) && d in available
    {
      FoundIff(reply, available, d);
    }
    if |InRange(located, radius)| <= 20 {
      forall d | d in InRange(located, radius)
        ensures InReply(reply, d)
      {
        AllReplied(located, radius, reply, d);
      }
    }
  }

  lemma FoundIff(reply: seq<Hit>, available: set<Id>, d: Id)
    ensures InReply(KeepAvailable(reply, available), d) <==> InReply(reply, d) && d in available
  {
    var found := KeepAvailable(reply, available);
    if InReply(found, d) {
      var i :| 0 <= i < |found| && found[i].driver == d;
      KeptMembers(reply, available, found[i]);
    }
    if InReply(reply, d) && d in available {
      var i :| 0 <= i < |reply| && reply[i].driver == d;
      KeptMembers(reply, available, reply[i]);
    }
  }

  lemma AllReplied(located: map<Id, real>, radius: real, reply: seq<Hit>, d: Id)
    requires GeoReply(located, radius, reply) && |InRange(located, radius)| <= 20
    requires d in InRange(located, radius)
    ensures InReply(reply, d)
  {
    if !InReply(reply, d) {
      CountDrivers(reply);
      InDriversOf(reply, d);
      forall x | x in DriversOf(reply)
        ensures x in InRange(located, radius)
      {
        InDriversOf(reply, x);
      }
      SmallerSet(DriversOf(reply) + {d}, InRange(located, radius));
    }
  }

  lemma {:induction false} SmallerSet(a: set<Id>, b: set<Id>)
    requires a <= b
    ensures |a| <= |b|
  {
    if a != {} {
      var x :| x in a;
      SmallerSet(a - {x}, b - {x});
    }
  }

  // ---------- the dispatched: sets ----------

  datatype OfferSet = OfferSet(members: set<Id>, deadline: nat)

  type Offers = map<Id, OfferSet>

  /** SMEMBERS dispatched:ride. */
  function Members(offers: Offers, ride: Id, now: nat): set<Id> {
    if ride in offers && now < offers[ride].deadline then offers[ride].members else {}
  }

  function ToSet(ids: seq<Id>): set<Id> { set d | d in ids }

  /** SADD dispatched:ride and EXPIRE 300, taken together. */
  function Record(offers: Offers, ride: Id, nearby: seq<Id>, now: nat): Offers {
    offers[ride := OfferSet(Members(offers, ride, now) + ToSet(nearby), now + DISPATCHED_TTL_SECONDS)]
  }

  /** DEL dispatched:ride. */
  function Retract(offers: Offers, ride: Id): Offers { offers - {ride} }

  /** A handled message that reaches the sets: a fan-out to the drivers found, or the
      retraction when a ride was accepted. */
  datatype Handled = FannedOut(ride: Id, now: nat, nearby: seq<Id>) | Accepted(ride: Id, now: nat)

  function Applied(offers: Offers, e: Handled): Offers {
    match e
    case FannedOut(ride, now, nearby) => if nearby == [] then offers else Record(offers, ride, nearby, now)
    case Accepted(ride, now) => Retract(offers, ride)
  }

  function OffersAfter(trace: seq<Handled>): Offers {
    if trace == [] then map[] else Applied(OffersAfter(trace[..|trace| - 1]), trace[|trace| - 1])
  }

  /** Event i published an offer of the ride to the driver. */
  predicate OfferedAt(trace: seq<Handled>, i: nat, ride: Id, driver: Id) {
    i < |trace| && trace[i].FannedOut? && trace[i].ride == ride && driver in trace[i].nearby
  }

  /** From event i to now the ride was not retracted, and no 300 seconds passed without a
      fan-out of it. */
  predicate Unlapsed(trace: seq<Handled>, i: nat, ride: Id, now: nat)
    requires i < |trace|
  {
    var last := trace[|trace| - 1];
    if last == Accepted(ride, last.now) then false
    else if last.FannedOut? && last.ride == ride && last.nearby != [] then
      now < last.now + 300
      && (i == |trace| - 1 || Unlapsed(trace[..|trace| - 1], i, ride, last.now))
    else i < |trace| - 1 && Unlapsed(trace[..|trace| - 1], i, ride, now)
  }

  predicate Outstanding(trace: seq<Handled>, ride: Id, driver: Id, now: nat) {
    exists i :: 0 <= i < |trace| && OfferedAt(trace, i, ride, driver) && Unlapsed(trace, i, ride, now)
  }

  lemma OutstandingStep(trace: seq<Handled>, ride: Id, driver: Id, now: nat)
    requires trace != []
    ensures var init, last := trace[..|trace| - 1], trace[|trace| - 1];
            Outstanding(trace, ride, driver, now) <==>
            if last == Accepted(ride, last.now) then false
            else if last.FannedOut? && last.ride == ride && last.nearby != [] then
              now < last.now + 300
              && (driver in last.nearby || Outstanding(init, ride, driver, last.now))
            else Outstanding(init, ride, driver, now)
  {
    var n := |trace| - 1;
    var init, last := trace[..n], trace[n];
    var then' := if last.FannedOut? && last.ride == ride && last.nearby != [] then last.now else now;
    if Outstanding(trace, ride, driver, now) {
      var i :| 0 <= i < |trace| && OfferedAt(trace, i, ride, driver) && Unlapsed(trace, i, ride, now);
      if i < n {
        assert OfferedAt(init, i, ride, driver) && Unlapsed(init, i, ride, then');
      }
    }
    if Outstanding(init, ride, driver, then') {
      var i :| 0 <= i < |init| && OfferedAt(init, i, ride, driver) && Unlapsed(init, i, ride, then');
      assert OfferedAt(trace, i, ride, driver);
      assert Unlapsed(trace, i, ride, now) ==> Outstanding(trace, ride, driver, now);
    }
    if OfferedAt(trace, n, ride, driver) {
      assert Unlapsed(trace, n, ride, now) ==> Outstanding(trace, ride, driver, now);
    }
  }

  /** The stored set is exactly the drivers holding an unretracted, unlapsed offer. */
  lemma {:induction false} MembersAreOutstanding(trace: seq<Handled>, ride: Id, driver: Id, now: nat)
    ensures driver in Members(OffersAfter(trace), ride, now) <==> Outstanding(trace, ride, driver, now)
  {
    if trace != [] {
      var init, last := trace[..|trace| - 1], trace[|trace| - 1];
      OutstandingStep(trace, ride, driver, now);
      MembersAreOutstanding(init, ride, driver, now);
      MembersAreOutstanding(init, ride, driver, last.now);
    }
  }

  // ---------- the handlers ----------

  datatype Offer = Offer(driver: Id, ride: Id)

  class Dispatcher {
    var offers: Offers
    var published: seq<Offer>
    var signals: seq<Signal>
    ghost var handled: seq<Handled>

    /** The sets are the work of the events handled so far. */
    ghost predicate Valid()
      reads this
    {
      offers == OffersAfter(handled)
    }

    constructor ()
      ensures Valid() && handled == [] && published == [] && signals == []
    {
      offers := map[];
      published := [];
      signals := [];
      handled := [];
    }

    ghost method Log(e: Handled)
      requires offers == Applied(OffersAfter(handled), e)
      modifies `handled
      ensures Valid() && handled == old(handled) + [e]
    {
      assert (handled + [e])[..|handled|] == handled;
      handled := handled + [e];
    }

    /** fanout_to_nearby_drivers, with the drivers the search found. */
    method FanOut(ride: Id, nearby: seq<Id>, now: nat)
      requires Valid()
      modifies this
      ensures Valid() && handled == old(handled) + [FannedOut(ride, now, nearby)]
      ensures published == old(published) + seq(|nearby|, i requires 0 <= i < |nearby| => Offer(nearby[i], ride))
      ensures signals == old(signals)
    {
      if nearby != [] {
        offers := Record(offers, ride, nearby, now);
        for k := 0 to |nearby|
          invariant offers == Record(old(offers), ride, nearby, now) && handled == old(handled)
          invariant published == old(published) + seq(k, i requires 0 <= i < k => Offer(nearby[i], ride))
          invariant signals == old(signals)
        {
          published := published + [Offer(nearby[k], ride)];
        }
      }
      Log(FannedOut(ride, now, nearby));
    }

    /** handle_ride_requested: only a ride still REQUESTED is fanned out. */
    method HandleRideRequested(ride: Option<Ride>, nearby: seq<Id>, now: nat)
      requires Valid()
      modifies this
      ensures Valid() && signals == old(signals)
      ensures ride.Some? && ride.value.status == REQUESTED ==>
                handled == old(handled) + [FannedOut(ride.value.id, now, nearby)]
                && published ==
                   old(published) + seq(|nearby|, i requires 0 <= i < |nearby| => Offer(nearby[i], ride.value.id))
      ensures ride.None? || ride.value.status != REQUESTED ==>
                handled == old(handled) && published == old(published)
    {
      if ride.None? || ride.value.status != REQUESTED {
        return;
      }
      FanOut(ride.value.id, nearby, now);
    }

    /** handle_ride_accepted. Retraction coverage: told, the drivers sent offer_cancelled,
        lists once each exactly the drivers other than the ride's own to whom an offer of it
        is outstanding, whatever was handled before. Before that the rider's stream gets one
        arrival time if the ride's driver is located; position is where. */
    method HandleRideAccepted(ride: Option<Ride>, position: Option<Point>, now: nat) returns (told: seq<Id>)
      requires Valid()
      modifies this
      ensures Valid() && published == old(published)
      ensures ride.None? ==> handled == old(handled) && told == []
      ensures ride.Some? ==> handled == old(handled) + [Accepted(ride.value.id, now)]
      ensures ride.Some? ==>
                forall d :: d in told <==>
                  Outstanding(old(handled), ride.value.id, d, now) && Some(d) != ride.value.driver
      ensures forall i, j :: 0 <= i < j < |told| ==> told[i] != told[j]
      ensures ride.Some? && ride.value.driver.Some? && position.Some? ==>
                signals == old(signals) + [DriverEta(ride.value.id, position.value, ride.value.pickup)]
      ensures ride.None? || ride.value.driver.None? || position.None? ==> signals == old(signals)
    {
      told := [];
      if ride.None? {
        return;
      }
      if ride.value.driver.Some? && position.Some? {
        signals := signals + [DriverEta(ride.value.id, position.value, ride.value.pickup)];
      }
      told := TellOthers(Members(offers, ride.value.id, now), ride.value.driver);
      forall d
        ensures d in Members(offers, ride.value.id, now) <==> Outstanding(handled, ride.value.id, d, now)
      {
        MembersAreOutstanding(handled, ride.value.id, d, now);
      }
      offers := Retract(offers, ride.value.id);
      Log(Accepted(ride.value.id, now));
    }

    /** handle_ride_completed: closes the ride's stream exactly when the row read is COMPLETED;
        a message of a ride cancelled over its completion closes nothing. */
    method HandleRideCompleted(id: Id, ride: Option<Ride>)
      requires Valid()
      modifies this
      ensures Valid() && handled == old(handled) && published == old(published)
      ensures ride.Some? && ride.value.status == COMPLETED ==> signals == old(signals) + [StreamClosed(id)]
      ensures ride.None? || ride.value.status != COMPLETED ==> signals == old(signals)
    {
      if ride.None? || ride.value.status != COMPLETED {
        return;
      }
      signals := signals + [StreamClosed(id)];
    }

    /** handle_ride_cancelled: closes the ride's stream exactly when the ride exists. */
    method HandleRideCancelled(id: Id, ride: Option<Ride>)
      requires Valid()
      modifies this
      ensures Valid() && handled == old(handled) && published == old(published)
      ensures signals == old(signals) + if ride.Some? then [StreamClosed(id)] else []
    {
      if ride.None? {
        return;
      }
      signals := signals + [StreamClosed(id)];
    }

    /** The loop over the dispatched drivers, in whatever order the set gives them. */
    static method TellOthers(dispatched: set<Id>, winner: Option<Id>) returns (told: seq<Id>)
      ensures forall d :: d in told <==> d in dispatched && Some(d) != winner
      ensures forall i, j :: 0 <= i < j < |told| ==> told[i] != told[j]
    {
      told := [];
      var todo := dispatched;
      while todo != {}
        invariant todo <= dispatched
        invariant forall d :: d in told <==> d in dispatched - todo && Some(d) != winner
        invariant forall i, j :: 0 <= i < j < |told| ==> told[i] != told[j]
        decreases todo
      {
        var d :| d in todo;
        if Some(d) != winner {
          told := told + [d];
        }
        todo := todo - {d};
      }
    }
  }
}

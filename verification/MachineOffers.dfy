/** Offer retraction in every interleaving (kafka_consumer.py:77-119, dispatch.py:91-110):
    whom the consumer tells that an accepted ride's offer is off. */
module MachineOffers {
  import opened Models
  import opened Dispatch
  import opened Worlds
  import opened RideRows
  import opened Machine
  import Rides = MachineRides

  // ---------- invariant ----------

  /** A recorded fan-out contains the offer. */
  predicate Recorded(handled: seq<Handled>, o: Offer) {
    exists i :: 0 <= i < |handled| && OfferedAt(handled, i, o.ride, o.driver)
  }

  predicate PublishedOK(log: Log) {
    forall k :: 0 <= k < |log.published| ==> Recorded(log.handled, log.published[k])
  }

  /** Offers are published only after they are recorded. */
  predicate ConsumerOK(handled: seq<Handled>, c: Consumer) {
    match c
    case FanRecord(_, nearby) => nearby != []
    case FanPublish(ride, todo) => forall k :: 0 <= k < |todo| ==> Recorded(handled, Offer(todo[k], ride.id))
    case _ => true
  }

  /** The dispatched: sets are the work of the events handled so far. */
  predicate ConfigOK(c: Config) {
    c.w.offers == OffersAfter(c.log.handled) && PublishedOK(c.log) && ConsumerOK(c.log.handled, c.consumer)
  }

  // ---------- one action ----------

  lemma RecordedStays(handled: seq<Handled>, e: Handled, o: Offer)
    requires Recorded(handled, o)
    ensures Recorded(handled + [e], o)
  {
    var i :| 0 <= i < |handled| && OfferedAt(handled, i, o.ride, o.driver);
    assert OfferedAt(handled + [e], i, o.ride, o.driver);
  }

  lemma OneMore(handled: seq<Handled>, e: Handled)
    ensures OffersAfter(handled + [e]) == Applied(OffersAfter(handled), e)
  {
    assert (handled + [e])[..|handled|] == handled;
  }

  lemma PublishedStays(log: Log, e: Handled)
    requires PublishedOK(log)
    ensures PublishedOK(log.(handled := log.handled + [e]))
  {
    hide Recorded;
    forall k | 0 <= k < |log.published|
      ensures Recorded(log.handled + [e], log.published[k])
    {
      RecordedStays(log.handled, e, log.published[k]);
    }
  }

  lemma FanOutRecorded(handled: seq<Handled>, ride: Id, now: nat, nearby: seq<Id>, k: nat)
    requires k < |nearby|
    ensures Recorded(handled + [FannedOut(ride, now, nearby)], Offer(nearby[k], ride))
  {
    assert OfferedAt(handled + [FannedOut(ride, now, nearby)], |handled|, ride, nearby[k]);
  }

  lemma HandleOK(c: Config, input: Input)
    requires ConfigOK(c)
    ensures ConfigOK(Next(c, Handle(input)))
  {
    hide Recorded, KeepAvailable, DriversIn, Record, Retract, Members, OffersAfter;
    match c.consumer
    case FanRecord(ride, nearby) =>
      var e := FannedOut(ride.id, c.w.now, nearby);
      OneMore(c.log.handled, e);
      PublishedStays(c.log, e);
      forall k | 0 <= k < |nearby|
        ensures Recorded(c.log.handled + [e], Offer(nearby[k], ride.id))
      {
        FanOutRecorded(c.log.handled, ride.id, c.w.now, nearby, k);
      }
    case TellDelete(id) =>
      OneMore(c.log.handled, Accepted(id, c.w.now));
      PublishedStays(c.log, Accepted(id, c.w.now));
    case _ =>
  }

  lemma NextOK(c: Config, a: Action)
    requires ConfigOK(c)
    ensures ConfigOK(Next(c, a))
  {
    if a.Handle? {
      HandleOK(c, a.handled);
    } else {
      hide StepTask, Admit, OffersAfter, PublishedOK, Recorded;
      Rides.OffersElsewhere(c, a);
    }
  }

  lemma {:induction false} RunOK(actions: seq<Action>)
    ensures ConfigOK(Exec(Start, actions))
  {
    if actions != [] {
      hide Next, ConfigOK;
      RunOK(actions[..|actions| - 1]);
      NextOK(Exec(Start, actions[..|actions| - 1]), actions[|actions| - 1]);
    }
  }

  // ---------- a fan-out by itself ----------

  /** n steps of the consumer in a row. */
  function Handles(n: nat, input: Input): seq<Action> {
    seq(n, i => Handle(input))
  }

  /** Offers of the ride to the drivers, in order. */
  function OffersOf(ride: Id, drivers: seq<Id>): seq<Offer> {
    if drivers == [] then [] else [Offer(drivers[0], ride)] + OffersOf(ride, drivers[1..])
  }

  lemma FirstHandle(c: Config, n: nat, input: Input)
    ensures Exec(c, Handles(n + 1, input)) == Exec(Next(c, Handle(input)), Handles(n, input))
  {
    hide Next;
    assert Handles(n + 1, input) == [Handle(input)] + Handles(n, input);
    ExecConcat(c, [Handle(input)], Handles(n, input));
    OneAction(c, Handle(input));
  }

  lemma {:induction false} PublishesAll(c: Config, input: Input)
    requires c.consumer.FanPublish?
    ensures var ride, todo := c.consumer.ride, c.consumer.todo;
            Exec(c, Handles(|todo| + 1, input)) ==
            c.(consumer := Idle, log := c.log.(published := c.log.published + OffersOf(ride.id, todo)))
    decreases |c.consumer.todo|
  {
    hide Exec;
    var ride, todo := c.consumer.ride, c.consumer.todo;
    FirstHandle(c, |todo|, input);
    if todo == [] {
      assert c.log.published + OffersOf(ride.id, todo) == c.log.published;
      assert Handles(0, input) == [];
      NoMoreHandles(Next(c, Handle(input)));
    } else {
      PublishesAll(Next(c, Handle(input)), input);
      assert c.log.published + [Offer(todo[0], ride.id)] + OffersOf(ride.id, todo[1..])
             == c.log.published + OffersOf(ride.id, todo);
    }
  }

  lemma NoMoreHandles(c: Config)
    ensures Exec(c, []) == c
  {
  }

  /** A ride-requested message handled without interruption: a ride still REQUESTED is recorded
      for, and offered to, the driver of every hit of the reply that is available, in the
      reply's order; a message of any other ride does nothing. */
  lemma FanOutAlone(c: Config, index: nat, input: Input)
    requires c.consumer.Idle? && index < |c.w.requested|
    requires Answers(c.w.located.Keys, 5.0, input.reply)
    ensures var id := c.w.requested[index];
            var kept := KeepAvailable(input.reply, c.w.available);
            var nearby := seq(|kept|, i requires 0 <= i < |kept| => kept[i].driver);
            var message := [Consume(RequestedTopic, index)];
            if id in c.w.rides && c.w.rides[id].status == REQUESTED && nearby != [] then
              var ride := c.w.rides[id].id;
              Exec(c, message + Handles(|nearby| + 5, input)) ==
              c.(w := c.w.(offers := Record(c.w.offers, ride, nearby, c.w.now)),
                 log := c.log.(handled := c.log.handled + [FannedOut(ride, c.w.now, nearby)],
                               published := c.log.published + OffersOf(ride, nearby)))
            else
              Exec(c, message + Handles(3, input)) == c
  {
    hide Exec, KeepAvailable, Record, Next;
    var c0 := c.(consumer := FanRead(c.w.requested[index]));
    var kept := KeepAvailable(input.reply, c.w.available);
    var nearby := seq(|kept|, i requires 0 <= i < |kept| => kept[i].driver);
    assert nearby == DriversIn(kept);
    Delivered(c, RequestedTopic, index);
    FanOutFrom(c0, input);
    OneAction(c, Consume(RequestedTopic, index));
    ExecConcat(c, [Consume(RequestedTopic, index)], Handles(|nearby| + 5, input));
    ExecConcat(c, [Consume(RequestedTopic, index)], Handles(3, input));
    assert c0.(consumer := Idle) == c;
  }

  /** The consumer starts on the message delivered. */
  lemma Delivered(c: Config, topic: Topic, index: nat)
    requires c.consumer.Idle?
    ensures topic == RequestedTopic && index < |c.w.requested| ==>
              Next(c, Consume(topic, index)) == c.(consumer := FanRead(c.w.requested[index]))
    ensures topic == AcceptedTopic && index < |c.w.accepted| ==>
              Next(c, Consume(topic, index)) == c.(consumer := TellRead(c.w.accepted[index]))
    ensures topic == CompletedTopic && index < |c.w.completed| ==>
              Next(c, Consume(topic, index)) == c.(consumer := CompletedRead(c.w.completed[index]))
    ensures topic == CancelledTopic && index < |c.w.cancelled| ==>
              Next(c, Consume(topic, index)) == c.(consumer := CancelledRead(c.w.cancelled[index]))
  {
  }

  lemma FanOutFrom(c: Config, input: Input)
    requires c.consumer.FanRead? && Answers(c.w.located.Keys, 5.0, input.reply)
    ensures var id := c.consumer.id;
            var nearby := DriversIn(KeepAvailable(input.reply, c.w.available));
            if id in c.w.rides && c.w.rides[id].status == REQUESTED && nearby != [] then
              var ride := c.w.rides[id].id;
              Exec(c, Handles(|nearby| + 5, input)) ==
              c.(w := c.w.(offers := Record(c.w.offers, ride, nearby, c.w.now)), consumer := Idle,
                 log := c.log.(handled := c.log.handled + [FannedOut(ride, c.w.now, nearby)],
                               published := c.log.published + OffersOf(ride, nearby)))
            else
              Exec(c, Handles(3, input)) == c.(consumer := Idle)
  {
    hide Exec, KeepAvailable, DriversIn, Record, Answers;
    var id := c.consumer.id;
    var nearby := DriversIn(KeepAvailable(input.reply, c.w.available));
    var c1 := Next(c, Handle(input));
    var c2 := Next(c1, Handle(input));
    var c3 := Next(c2, Handle(input));
    FirstHandle(c, 2, input);
    FirstHandle(c1, 1, input);
    FirstHandle(c2, 0, input);
    assert Handles(0, input) == [];
    NoMoreHandles(c3);
    if id in c.w.rides && c.w.rides[id].status == REQUESTED && nearby != [] {
      var n := |nearby|;
      FirstHandle(c, n + 4, input);
      FirstHandle(c1, n + 3, input);
      FirstHandle(c2, n + 2, input);
      FirstHandle(c3, n + 1, input);
      PublishesAll(Next(c3, Handle(input)), input);
    }
  }

  // ---------- what this says of every run ----------

  /** Retraction coverage: when the consumer, handling ride-accepted, emits its
      offer_cancelled events, it emits one to exactly those drivers, other than the ride's
      own, to whom an offer of the ride is outstanding: fanned out at any earlier time, not
      retracted, and its 300 seconds, which every fan-out restarts, never lapsed. Only
      recorded offers are ever published. */
  lemma EveryOutstandingOfferRetracted(actions: seq<Action>, input: Input)
    requires Exec(Start, actions).consumer.TellMembers?
    ensures var c := Exec(Start, actions);
            var ride := c.consumer.ride;
            var c' := Next(c, Handle(input));
            |c'.log.told| == |c.log.told| + 1
            && (var told := c'.log.told[|c.log.told|];
                told.ride == ride.id
                && forall d :: d in told.drivers <==>
                     Outstanding(c.log.handled, ride.id, d, c.w.now) && Some(d) != ride.driver)
    ensures var log := Exec(Start, actions).log;
            forall k :: 0 <= k < |log.published| ==> Recorded(log.handled, log.published[k])
  {
    hide Exec, Outstanding, OffersAfter, Recorded;
    RunOK(actions);
    var c := Exec(Start, actions);
    forall d
      ensures d in Members(c.w.offers, c.consumer.ride.id, c.w.now)
              <==> Outstanding(c.log.handled, c.consumer.ride.id, d, c.w.now)
    {
      MembersAreOutstanding(c.log.handled, c.consumer.ride.id, d, c.w.now);
    }
  }

  /** Once one handling of ride-accepted has completed, any redelivered one tells nobody: no
      driver hears twice, whatever happens in between. */
  lemma NobodyToldTwice(actions: seq<Action>, input: Input, more: seq<Action>, again: Input)
    requires Exec(Start, actions).consumer.TellDelete?
    requires var c' := Exec(Next(Exec(Start, actions), Handle(input)), more);
             c'.consumer.TellMembers? && c'.consumer.ride.id == Exec(Start, actions).consumer.id
    ensures var c' := Exec(Next(Exec(Start, actions), Handle(input)), more);
            Next(c', Handle(again)).log.told == c'.log.told + [Told(c'.consumer.ride.id, {}, c'.w.now)]
  {
    hide Exec;
    Rides.RetractedForEver(actions, input, more);
    var c' := Exec(Next(Exec(Start, actions), Handle(input)), more);
    assert Members(c'.w.offers, c'.consumer.ride.id, c'.w.now) == {};
    assert Others({}, c'.consumer.ride.driver) == {};
  }

  // ---------- fan-outs of a ride no longer requested ----------

  /** How often the ride was fanned out. */
  function FanOuts(handled: seq<Handled>, id: Id): nat {
    if handled == [] then 0
    else
      var last := handled[|handled| - 1];
      FanOuts(handled[..|handled| - 1], id) + if last.FannedOut? && last.ride == id then 1 else 0
  }

  lemma OneMoreHandled(handled: seq<Handled>, e: Handled, id: Id)
    ensures FanOuts(handled + [e], id) == FanOuts(handled, id) + if e.FannedOut? && e.ride == id then 1 else 0
  {
    assert (handled + [e])[..|handled|] == handled;
  }

  /** Fan-outs of the ride so far, counting one that is under way. */
  function FanOutsDue(c: Config, id: Id): nat {
    FanOuts(c.log.handled, id) + if Rides.Fanning(c.consumer, id) then 1 else 0
  }

  lemma NoneBegins(c: Config, a: Action, id: Id)
    requires Rides.ConfigOK(c) && id in c.w.rides && c.w.rides[id].status != REQUESTED
    ensures FanOutsDue(Next(c, a), id) <= FanOutsDue(c, id)
  {
    if a.Handle? {
      hide Rides.ConfigOK, Members, Record, Retract, KeepAvailable, DriversIn, TellEta, CloseStream, FanOuts;
      match c.consumer
      case FanRead(x) =>
        if x in c.w.rides {
          StoredId(c, x);
        }
      case FanRecord(ride, nearby) => OneMoreHandled(c.log.handled, FannedOut(ride.id, c.w.now, nearby), id);
      case TellDelete(x) => OneMoreHandled(c.log.handled, Accepted(x, c.w.now), id);
      case _ =>
    } else {
      hide StepTask, Admit, Rides.ConfigOK, FanOuts;
    }
  }

  lemma StoredId(c: Config, id: Id)
    requires Rides.ConfigOK(c) && id in c.w.rides
    ensures c.w.rides[id].id == id
  {
    Rides.ReadId(c.w, id);
  }

  /** At most one fan-out of a ride can overlap its accept's commit: from any moment on at
      which the ride is no longer REQUESTED, however messages are redelivered or retried, at
      most one fan-out of it is still recorded, the one the consumer had begun. */
  lemma {:induction false} AtMostOneLateFanOut(actions: seq<Action>, more: seq<Action>, id: Id)
    requires var c := Exec(Start, actions); id in c.w.rides && c.w.rides[id].status != REQUESTED
    ensures var c, c' := Exec(Start, actions), Exec(Start, actions + more);
            FanOuts(c'.log.handled, id)
            <= FanOuts(c.log.handled, id) + if Rides.Fanning(c.consumer, id) then 1 else 0
  {
    hide Exec;
    Rides.RunOK(actions);
    ExecConcat(Start, actions, more);
    NoneBeginsLater(Exec(Start, actions), more, id);
  }

  lemma {:induction false} NoneBeginsLater(c: Config, more: seq<Action>, id: Id)
    requires Rides.ConfigOK(c) && id in c.w.rides && c.w.rides[id].status != REQUESTED
    ensures FanOutsDue(Exec(c, more), id) <= FanOutsDue(c, id)
  {
    if more != [] {
      hide Next, Rides.ConfigOK, FanOutsDue, SameTrip;
      NoneBeginsLater(c, more[..|more| - 1], id);
      Rides.RunLater(c, more[..|more| - 1]);
      NoneBegins(Exec(c, more[..|more| - 1]), more[|more| - 1], id);
    }
  }
}

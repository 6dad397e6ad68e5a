/** What a well-formed ride row looks like, and which parts of it never change. */
module RideRows {
  import opened Models
  import opened Worlds

  /** The columns tell one story: the status fixes the driver, the version and the fare. */
  predicate Consistent(r: Ride) {
    && (r.status == COMPLETED <==> r.fare.Some?)
    && (r.status == COMPLETED <==> r.completedAt.Some?)
    && (r.fare.Some? ==> r.fare == r.estimatedFare)
    && r.estimatedFare.Some?
    && (r.status == REQUESTED ==> r.driver.None? && r.version == 0)
    && (r.status == MATCHED ==> r.driver.Some? && r.version == 1)
    && (r.status == IN_PROGRESS ==> r.driver.Some? && r.version == 2)
    && (r.status == COMPLETED ==> r.driver.Some? && r.version == 3)
    && (r.status == CANCELLED ==> r.version >= 1)
  }

  /** Who, from where to where, when asked for and at which quote. */
  predicate SameTrip(r: Ride, s: Ride) {
    && r.id == s.id && r.rider == s.rider && r.pickup == s.pickup && r.dropoff == s.dropoff
    && r.requestedAt == s.requestedAt && r.estimatedFare == s.estimatedFare
  }

  /** The row a handler saves over snapshot s of the same ride: the status moves one arrow on,
      the version counts it, an accept puts the driver in, a completion the fare and the time. */
  predicate Transition(s: Ride, r: Ride) {
    && r.version == s.version + 1
    && match r.status
       case REQUESTED => false
       case MATCHED => s.status == REQUESTED && r.driver.Some? && SameBut(s, r, r.driver, s.fare, s.completedAt)
       case IN_PROGRESS => s.status == MATCHED && SameBut(s, r, s.driver, s.fare, s.completedAt)
       case COMPLETED =>
         s.status == IN_PROGRESS && r.completedAt.Some? && SameBut(s, r, s.driver, s.estimatedFare, r.completedAt)
       case CANCELLED =>
         s.status in {REQUESTED, MATCHED, CANCELLED} && SameBut(s, r, s.driver, s.fare, s.completedAt)
  }

  /** The same trip, with these driver, fare and time of completion. */
  predicate SameBut(s: Ride, r: Ride, driver: Option<Id>, fare: Option<nat>, completedAt: Option<nat>) {
    SameTrip(s, r) && r.driver == driver && r.fare == fare && r.completedAt == completedAt
  }

  /** What the four handlers save over the row they have read is such a transition. */
  lemma SavesTransition(s: Ride, driver: Id, at: nat)
    ensures s.status == REQUESTED ==> Transition(s, Matched(s, driver))
    ensures s.status == MATCHED ==> Transition(s, Started(s))
    ensures s.status == IN_PROGRESS ==> Transition(s, Completed(s, at))
    ensures s.status in {REQUESTED, MATCHED, CANCELLED} ==> Transition(s, Cancelled(s))
  {
  }

  /** Every saved row is again consistent, is the same trip and is no longer REQUESTED. */
  lemma TransitionKeepsRow(s: Ride, r: Ride)
    requires Consistent(s) && Transition(s, r)
    ensures Consistent(r) && SameTrip(s, r) && r.status != REQUESTED
    ensures s.status != COMPLETED
  {
  }
}

/** Ratings in every interleaving (services/rating.py:36-63): who rates whom, and how often,
    although the checks of rate and its insert are separate steps. */
module MachineRatings {
  import opened Models
  import opened Worlds
  import opened Machine
  import opened MachineHistory
  import Rides = MachineRides
  import SerialRatings

  /** From a moment of the run to its end. */
  lemma FromMoment(actions: seq<Action>, k: nat)
    requires k <= |actions|
    ensures Rides.WorldOK(Moment(actions, k)) && Rides.WorldOK(Exec(Start, actions).w)
    ensures Rides.Later(Moment(actions, k), Exec(Start, actions).w)
  {
    hide Exec, Rides.Later;
    Rides.RunOK(actions[..k]);
    Rides.RunLater(Exec(Start, actions[..k]), actions[k..]);
    ExecConcat(Start, actions[..k], actions[k..]);
    assert actions[..k] + actions[k..] == actions;
  }

  /** Who rates whom, seen from any later moment: the rider rates the driver whose accept of the
      ride was saved, that driver rates the rider, and nobody else rates; so it is even if the
      row was overwritten since. */
  lemma RatersAreParticipants(actions: seq<Action>, i: nat)
    requires i < |Exec(Start, actions).w.ratings|
    ensures var w := Exec(Start, actions).w; var r := w.ratings[i];
            r.rideId in w.rides && r.rideId in w.commits && |w.commits[r.rideId]| == 1 && 1 <= r.score <= 5
            && (var rider, driver := w.rides[r.rideId].rider, w.commits[r.rideId][0];
                (r.fromUser == rider ==> r.toUser == driver)
                && (r.fromUser != rider ==> r.fromUser == driver && r.toUser == rider))
  {
    hide Exec, Rides.WorldOK;
    var k := RatingProvenance(actions, i);
    FromMoment(actions, k);
    Committed(Moment(actions, k), Exec(Start, actions).w, Exec(Start, actions).w.ratings[i].rideId);
  }

  lemma Committed(w: World, w': World, id: Id)
    requires Rides.WorldOK(w) && Rides.Later(w, w') && id in w.rides && w.rides[id].status == COMPLETED
    ensures id in w'.rides && w'.rides[id].rider == w.rides[id].rider
    ensures w.rides[id].driver.Some? && id in w'.commits && w'.commits[id] == [w.rides[id].driver.value]
  {
    assert Rides.RowOK(w, id);
  }

  /** The unique constraint holds against every interleaving of check and insert. */
  lemma {:induction false} PairsStayUnique(actions: seq<Action>)
    ensures SerialRatings.PairsUnique(Exec(Start, actions).w.ratings)
  {
    if actions != [] {
      hide Next, SerialRatings.PairsUnique;
      var c, a := Exec(Start, actions[..|actions| - 1]), actions[|actions| - 1];
      PairsStayUnique(actions[..|actions| - 1]);
      NextRecords(c, a);
      InsertUnique(c.w, Stepper(c, a));
    }
  }

  lemma InsertUnique(w: World, t: Task)
    requires SerialRatings.PairsUnique(w.ratings)
    ensures SerialRatings.PairsUnique(w.ratings + RatingInserted(w, t))
  {
  }

  /** No ride has three ratings, in any interleaving. */
  lemma AtMostTwoPerRide(actions: seq<Action>, i: nat, j: nat, k: nat)
    requires i < j < k < |Exec(Start, actions).w.ratings|
    ensures var r := Exec(Start, actions).w.ratings; !(r[i].rideId == r[j].rideId == r[k].rideId)
  {
    hide Exec;
    PairsStayUnique(actions);
    RatersAreParticipants(actions, i);
    RatersAreParticipants(actions, j);
    RatersAreParticipants(actions, k);
  }
}

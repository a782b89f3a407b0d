/** The document store as the ride core sees it: the ride collection and the
    two account collections, each a map from id to document, plus the
    insertion order in which queries return rides and riders. */
module Store {
  import opened Wrappers
  import opened RideModel

  predicate Distinct<T(==)>(xs: seq<T>) {
    forall i, j :: 0 <= i < j < |xs| ==> xs[i] != xs[j]
  }

  /** The documents of `order`, looked up in `m`, in that order. */
  function InOrder<K, V>(order: seq<K>, m: map<K, V>): (vs: seq<V>)
    requires forall i :: 0 <= i < |order| ==> order[i] in m
    ensures |vs| == |order| && forall i :: 0 <= i < |order| ==> vs[i] == m[order[i]]
  {
    if order == [] then [] else [m[order[0]]] + InOrder(order[1..], m)
  }

  class Db {
    var rides: map<RideId, Ride>
    var rideOrder: seq<RideId>
    var users: map<UserId, User>
    var riders: map<RiderId, Rider>
    var riderOrder: seq<RiderId>

    /** Each collection's order lists its keys once each, and every document
        is stored under its own id. */
    ghost predicate Valid()
      reads this
    {
      (forall id :: id in rides <==> id in rideOrder) && Distinct(rideOrder)
      && (forall id :: id in riders <==> id in riderOrder) && Distinct(riderOrder)
      && (forall id :: id in rides ==> rides[id].id == id)
      && (forall id :: id in users ==> users[id].id == id)
      && (forall id :: id in riders ==> riders[id].id == id)
    }

    constructor ()
      ensures Valid()
      ensures rides == map[] && rideOrder == [] && users == map[] && riders == map[] && riderOrder == []
    {
      rides, rideOrder, users, riders, riderOrder := map[], [], map[], map[], [];
    }

    /** The rider collection as a query returns it. */
    function Directory(): (ds: seq<Rider>)
      reads this
      requires Valid()
      ensures |ds| == |riderOrder| && forall i :: 0 <= i < |ds| ==> ds[i] == riders[riderOrder[i]]
    {
      InOrder(riderOrder, riders)
    }

    /** `rideModel.create`: a new document under a fresh id, last in order. */
    method InsertRide(r: Ride)
      requires Valid() && r.id !in rides
      modifies this
      ensures Valid()
      ensures rides == old(rides)[r.id := r] && rideOrder == old(rideOrder) + [r.id]
      ensures users == old(users) && riders == old(riders) && riderOrder == old(riderOrder)
    {
      rides := rides[r.id := r];
      rideOrder := rideOrder + [r.id];
    }
  }
}

/** createTrip, deleteTrip, addActivityToTrip and removeActivityFromTrip of
    backend/controllers/tripController.js over the trips collection. The
    caller's identity is what the handler reads from the request
    (`req.user.userId` in create and delete, `req.user.id` in add and
    remove); the middleware that sets it is not part of this model. Request
    fields that are missing or falsy are the empty string. Mongoose's casts
    of request text to a Date or an ObjectId are function parameters that
    give None where the cast throws. */
module TripController {
  import opened Common
  import opened Collections

  type Id = nat

  /** One entry of `trip.cities`; `id` is the subdocument's generated _id. */
  datatype CityStop = CityStop(id: Id, cityId: Id, startDate: int, endDate: int, order: int)

  datatype Trip = Trip(id: Id, userId: Id, title: string, description: string, startDate: int,
                       endDate: int, isPublic: bool, cities: seq<CityStop>)

  /** The request's `order`: undefined, null, or a value that Mongoose casts
      to a Number (`Given(Some(n))`) or cannot cast (`Given(None)`). */
  datatype OrderIn = Undefined | Null | Given(number: Option<int>)

  /** The trip a handler acts on: the first with this id owned by `owner`. */
  function OwnedTrip(trips: seq<Trip>, tripId: Id, owner: Id): Option<nat>
  {
    FirstIndex(trips, (t: Trip) => t.id == tripId && t.userId == owner)
  }

  /** The validation of addActivityToTrip: cityId, startDate and endDate
      must be truthy, and order merely defined (0 and null pass). */
  predicate StopFieldsPresent(cityId: string, startDate: string, endDate: string, order: OrderIn)
  {
    cityId != "" && startDate != "" && endDate != "" && !order.Undefined?
  }

  /** The pushed entry survives casting and the schema: cityId is an
      ObjectId, both dates are valid Dates, and order is a Number (the
      schema requires it, so null fails). */
  predicate StopCasts(castId: string -> Option<Id>, castDate: string -> Option<int>, cityId: string,
                      startDate: string, endDate: string, order: OrderIn)
  {
    castId(cityId).Some? && castDate(startDate).Some? && castDate(endDate).Some?
    && order.Given? && order.number.Some?
  }

  /** `trip.cities.filter(city => city._id.toString() !== activityId)`. */
  function WithoutStop(cities: seq<CityStop>, stopId: Id): (r: seq<CityStop>)
  {
    Filter(cities, (c: CityStop) => c.id != stopId)
  }

  /** Removing by id drops every entry with that id, keeps every other entry
      in order, and changes nothing when no entry has the id. */
  lemma WithoutStopSpec(cities: seq<CityStop>, stopId: Id)
    ensures forall i :: 0 <= i < |WithoutStop(cities, stopId)| ==> WithoutStop(cities, stopId)[i].id != stopId
    ensures forall i :: 0 <= i < |cities| && cities[i].id != stopId ==> cities[i] in WithoutStop(cities, stopId)
    ensures IsSubsequence(WithoutStop(cities, stopId), cities)
    ensures (forall i :: 0 <= i < |cities| ==> cities[i].id != stopId) ==> WithoutStop(cities, stopId) == cities
  {
    FilterSubsequence(cities, (c: CityStop) => c.id != stopId);
    if forall i :: 0 <= i < |cities| ==> cities[i].id != stopId {
      FilterAll(cities, (c: CityStop) => c.id != stopId);
    }
  }

  /** Removing a stop that was just appended with a fresh id restores the
      list. */
  lemma AddThenRemove(cities: seq<CityStop>, stop: CityStop)
    requires forall i :: 0 <= i < |cities| ==> cities[i].id != stop.id
    ensures WithoutStop(cities + [stop], stop.id) == cities
  {
    FilterAppend(cities, [stop], (c: CityStop) => c.id != stop.id);
    FilterAll(cities, (c: CityStop) => c.id != stop.id);
  }

  /** Every id handed out so far, to a trip or to a stop, is below `nextId`. */
  ghost predicate IdsBelow(trips: seq<Trip>, nextId: Id)
  {
    forall t | t in trips :: t.id < nextId && forall c | c in t.cities :: c.id < nextId
  }

  /** A stop added under the store's next id can be removed again by that
      id, and the trip's list is what it was before. */
  lemma FreshStopRemovable(trips: seq<Trip>, nextId: Id, k: nat, stop: CityStop)
    requires IdsBelow(trips, nextId) && k < |trips| && stop.id == nextId
    ensures WithoutStop(trips[k].cities + [stop], stop.id) == trips[k].cities
  {
    assert trips[k] in trips;
    AddThenRemove(trips[k].cities, stop);
  }

  class TripStore {
    var trips: seq<Trip>
    var nextId: Id

    ghost predicate Valid()
      reads this
    {
      IdsBelow(trips, nextId)
    }

    constructor ()
      ensures trips == [] && nextId == 0
      ensures Valid()
    {
      trips, nextId := [], 0;
    }

    /** createTrip: 400 unless every field is present; a date that does
        not cast makes `Trip.create` throw, answered with 500; otherwise the
        new trip is private and its date order is not checked. */
    method CreateTrip(userId: Option<Id>, title: string, description: string, startDate: string, endDate: string,
                      castDate: string -> Option<int>)
      returns (status: int, created: Option<Trip>)
      modifies this
      requires Valid()
      ensures Valid()
      ensures status == 400 <==> userId.None? || title == "" || description == "" || startDate == "" || endDate == ""
      ensures status == 500 <==>
        status != 400 && (castDate(startDate).None? || castDate(endDate).None?)
      ensures status == 400 || status == 500 ==> trips == old(trips) && nextId == old(nextId) && created.None?
      ensures status != 400 && status != 500 ==>
        && status == 201
        && created == Some(Trip(old(nextId), userId.value, title, description, castDate(startDate).value,
                                castDate(endDate).value, false, []))
        && trips == old(trips) + [created.value] && nextId == old(nextId) + 1
    {
      if userId.None? || title == "" || description == "" || startDate == "" || endDate == "" {
        return 400, None;
      }
      var start, end := castDate(startDate), castDate(endDate);
      if start.None? || end.None? {
        return 500, None;
      }
      var trip := Trip(nextId, userId.value, title, description, start.value, end.value, false, []);
      trips := trips + [trip];
      nextId := nextId + 1;
      status, created := 201, Some(trip);
    }

    /** deleteTrip: findOneAndDelete on both the trip id and the owner. */
    method DeleteTrip(tripId: Id, userId: Id) returns (status: int)
      modifies this
      requires Valid()
      ensures Valid()
      ensures nextId == old(nextId)
      ensures OwnedTrip(old(trips), tripId, userId).None? ==> status == 404 && trips == old(trips)
      ensures OwnedTrip(old(trips), tripId, userId).Some? ==>
        status == 200 && trips == RemoveAt(old(trips), OwnedTrip(old(trips), tripId, userId).value)
    {
      var k := OwnedTrip(trips, tripId, userId);
      if k.None? {
        return 404;
      }
      trips := RemoveAt(trips, k.value);
      status := 200;
    }

    /** addActivityToTrip: 400 for a missing field, 404 for a trip the
        caller does not own; an entry that fails a cast or the schema makes
        the push or save throw, answered with 500 and nothing saved;
        otherwise one entry is appended at the end of the trip's cities and
        nothing else changes. */
    method AddActivityToTrip(tripId: Id, callerId: Id, cityId: string, startDate: string, endDate: string,
                             order: OrderIn, castId: string -> Option<Id>, castDate: string -> Option<int>)
      returns (status: int)
      modifies this
      requires Valid()
      ensures Valid()
      ensures !StopFieldsPresent(cityId, startDate, endDate, order) ==>
        status == 400 && trips == old(trips) && nextId == old(nextId)
      ensures StopFieldsPresent(cityId, startDate, endDate, order) && OwnedTrip(old(trips), tripId, callerId).None? ==>
        status == 404 && trips == old(trips) && nextId == old(nextId)
      ensures (StopFieldsPresent(cityId, startDate, endDate, order) && OwnedTrip(old(trips), tripId, callerId).Some?
               && !StopCasts(castId, castDate, cityId, startDate, endDate, order)) ==>
        status == 500 && trips == old(trips) && nextId == old(nextId)
      ensures (StopFieldsPresent(cityId, startDate, endDate, order) && OwnedTrip(old(trips), tripId, callerId).Some?
               && StopCasts(castId, castDate, cityId, startDate, endDate, order)) ==>
        var k := OwnedTrip(old(trips), tripId, callerId).value;
        var stop := CityStop(old(nextId), castId(cityId).value, castDate(startDate).value, castDate(endDate).value,
                             order.number.value);
        && status == 200 && nextId == old(nextId) + 1
        && trips == old(trips)[k := old(trips)[k].(cities := old(trips)[k].cities + [stop])]
    {
      if !StopFieldsPresent(cityId, startDate, endDate, order) {
        return 400;
      }
      var k := OwnedTrip(trips, tripId, callerId);
      if k.None? {
        return 404;
      }
      if !StopCasts(castId, castDate, cityId, startDate, endDate, order) {
        return 500;
      }
      var stop := CityStop(nextId, castId(cityId).value, castDate(startDate).value, castDate(endDate).value,
                           order.number.value);
      var trip := trips[k.value];
      trip := trip.(cities := trip.cities + [stop]);
      nextId := nextId + 1;
      trips := trips[k.value := trip];
      status := 200;
    }

    /** removeActivityFromTrip: the trip's cities are filtered by entry id. */
    method RemoveActivityFromTrip(tripId: Id, callerId: Id, stopId: Id) returns (status: int)
      modifies this
      requires Valid()
      ensures Valid()
      ensures nextId == old(nextId)
      ensures OwnedTrip(old(trips), tripId, callerId).None? ==> status == 404 && trips == old(trips)
      ensures OwnedTrip(old(trips), tripId, callerId).Some? ==>
        var k := OwnedTrip(old(trips), tripId, callerId).value;
        status == 200 && trips == old(trips)[k := old(trips)[k].(cities := WithoutStop(old(trips)[k].cities, stopId))]
    {
      var k := OwnedTrip(trips, tripId, callerId);
      if k.None? {
        return 404;
      }
      var trip := trips[k.value];
      trips := trips[k.value := trip.(cities := WithoutStop(trip.cities, stopId))];
      status := 200;
    }
  }
}

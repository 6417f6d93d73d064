/** The trip list of frontend/src/pages/User/MyTrips.tsx: the constant trips
    filtered by the active tab and the search text, then sorted by date or
    by name. Dates are the milliseconds `new Date(date)` gives for the
    date-only strings (UTC midnight). */
module MyTrips {
  import opened Common
  import opened Collections
  import opened Sorting

  datatype Status = Upcoming | Past | Completed

  datatype Trip = Trip(id: int, name: string, destination: string, date: int, status: Status)

  datatype SortKey = ByDate | ByName

  const TripsData: seq<Trip> := [
    Trip(1, "Beach Vacation", "Maldives", 1757462400000, Upcoming),
    Trip(2, "Mountain Trek", "Himalayas", 1747699200000, Completed),
    Trip(3, "City Tour", "Paris", 1749945600000, Past),
    Trip(4, "Desert Safari", "Dubai", 1761955200000, Upcoming),
    Trip(5, "Cruise Trip", "Caribbean", 1743465600000, Completed)
  ]

  predicate Listed(t: Trip, tab: Status, search: string)
  {
    t.status == tab && Contains(ToLower(t.name), ToLower(search))
  }

  function Order(key: SortKey): (Trip, Trip) -> bool
  {
    match key
    case ByDate => ByKey((t: Trip) => t.date)
    case ByName => ByText((t: Trip) => t.name)
  }

  lemma OrderTotal(s: seq<Trip>, key: SortKey)
    ensures TotalOn(s, Order(key))
  {
    match key {
      case ByDate => ByKeyTotal(s, (t: Trip) => t.date);
      case ByName => ByTextTotal(s, (t: Trip) => t.name);
    }
  }

  /** Every listed trip is in the active tab and matches the search; every
      such trip is listed; the list is sorted by the chosen key and is a
      reordering of the matching trips. */
  function FilteredTrips(trips: seq<Trip>, tab: Status, search: string, key: SortKey): (r: seq<Trip>)
    ensures forall i :: 0 <= i < |r| ==>
      r[i] in trips && r[i].status == tab && Contains(ToLower(r[i].name), ToLower(search))
    ensures forall i :: 0 <= i < |trips| && Listed(trips[i], tab, search) ==> trips[i] in r
    ensures SortedBy(r, Order(key))
    ensures multiset(r) == multiset(Filter(trips, (t: Trip) => Listed(t, tab, search)))
  {
    SortedListed(trips, tab, search, key);
    Sort(Filter(trips, (t: Trip) => Listed(t, tab, search)), Order(key))
  }

  /** The listed trips, sorted: in the data, in the tab and matching the
      search, all of them, in order. */
  lemma SortedListed(trips: seq<Trip>, tab: Status, search: string, key: SortKey)
    ensures var f := Filter(trips, (t: Trip) => Listed(t, tab, search));
      var r := Sort(f, Order(key));
      && (forall x :: x in r <==> x in trips && Listed(x, tab, search))
      && SortedBy(r, Order(key))
      && multiset(r) == multiset(f)
  {
    var f := Filter(trips, (t: Trip) => Listed(t, tab, search));
    OrderTotal(f, key);
    SortSorted(f, Order(key));
    SortMembers(f, Order(key));
    FilterMembers(trips, (t: Trip) => Listed(t, tab, search));
  }

  /** An empty search keeps the whole tab. */
  lemma EmptySearchKeepsTab(trips: seq<Trip>, tab: Status, key: SortKey)
    ensures var r := FilteredTrips(trips, tab, "", key);
      forall i :: 0 <= i < |trips| && trips[i].status == tab ==> trips[i] in r
  {
    forall i | 0 <= i < |trips| && trips[i].status == tab ensures Listed(trips[i], tab, "") {
      ContainsEmpty(ToLower(trips[i].name));
    }
  }
}

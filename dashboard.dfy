/** The city list, the country options and the trip shown on the map of
    frontend/src/pages/Dashboard.tsx. Cities are objects: the category
    showcase writes images into them (module DashboardShowcase); every
    other field is fixed once fetched. Numbers are integers and dates
    milliseconds. */
module Dashboard {
  import opened Common
  import opened Collections
  import opened Sorting
  import ItineraryBuild

  class City {
    const id: string
    const name: string
    const country: string
    const costIndex: Option<int>
    const popularityScore: Option<int>
    /** `coordinates` is an array. */
    const hasCoordinates: bool
    var images: seq<string>

    constructor (id: string, name: string, country: string, costIndex: Option<int>, popularityScore: Option<int>,
                 hasCoordinates: bool, images: seq<string>)
      ensures this.id == id && this.name == name && this.country == country
      ensures this.costIndex == costIndex && this.popularityScore == popularityScore
      ensures this.hasCoordinates == hasCoordinates && this.images == images
    {
      this.id, this.name, this.country := id, name, country;
      this.costIndex, this.popularityScore, this.hasCoordinates := costIndex, popularityScore, hasCoordinates;
      this.images := images;
    }
  }

  datatype SortBy = Popularity | Cost | AZ

  const BeachTerms: seq<string> := ["beach", "coast", "maldives", "bali", "cancun", "hawaii"]
  const NatureTerms: seq<string> := ["park", "mountain", "lake", "alps", "forest", "canyon"]

  predicate NameHasAny(c: City, terms: seq<string>)
  {
    exists i | 0 <= i < |terms| :: Contains(ToLower(c.name), terms[i])
  }

  /** The category keys that have a predicate. */
  predicate KnownCategory(key: string)
  {
    key == "beach" || key == "city" || key == "nature" || key == "culture"
  }

  /** The category predicates; `city` and `culture` read a number, with a
      missing or zero number failing. */
  predicate InCategory(key: string, c: City)
  {
    if key == "beach" then NameHasAny(c, BeachTerms)
    else if key == "city" then c.popularityScore.Some? && c.popularityScore.value > 70
    else if key == "nature" then NameHasAny(c, NatureTerms)
    else if key == "culture" then c.costIndex.Some? && c.costIndex.value > 60
    else true
  }

  /** The text search: the query is lowercased but not trimmed. */
  predicate MatchesQuery(c: City, query: string)
  {
    Contains(ToLower(c.name), ToLower(query)) || Contains(ToLower(c.country), ToLower(query))
  }

  /** Everything filteredCities asks of a city. */
  predicate Kept(c: City, query: string, countryFilter: string, category: string)
  {
    && (Trim(query) != "" ==> MatchesQuery(c, query))
    && (countryFilter != "all" ==> c.country == countryFilter)
    && (category != "all" ==> InCategory(category, c))
  }

  function CostOrZero(c: City): int
  {
    if c.costIndex.Some? then c.costIndex.value else 0
  }

  function PopularityOrZero(c: City): int
  {
    if c.popularityScore.Some? then c.popularityScore.value else 0
  }

  function NameOf(c: City): string
  {
    c.name
  }

  function NegPopularity(c: City): int
  {
    -PopularityOrZero(c)
  }

  function Order(sortBy: SortBy): (City, City) -> bool
  {
    match sortBy
    case Cost => ByKey<City>(CostOrZero)
    case AZ => ByText<City>(NameOf)
    case Popularity => ByKey<City>(NegPopularity)
  }

  /** The three filters of filteredCities, one after the other. */
  function Unsorted(cities: seq<City>, query: string, countryFilter: string, category: string): seq<City>
  {
    var byText := if Trim(query) != "" then Filter(cities, (c: City) => MatchesQuery(c, query)) else cities;
    var byCountry := if countryFilter != "all" then Filter(byText, (c: City) => c.country == countryFilter) else byText;
    if category != "all" && KnownCategory(category) then Filter(byCountry, (c: City) => InCategory(category, c))
    else byCountry
  }

  /** filteredCities: a sorted copy of the kept cities. */
  function FilteredCities(cities: seq<City>, query: string, countryFilter: string, category: string,
                          sortBy: SortBy): (r: seq<City>)
    ensures multiset(r) == multiset(Unsorted(cities, query, countryFilter, category))
    ensures SortedBy(r, Order(sortBy))
  {
    CitiesSorted(Unsorted(cities, query, countryFilter, category), sortBy);
    Sort(Unsorted(cities, query, countryFilter, category), Order(sortBy))
  }

  /** A city survives the filters exactly when it passes every one. */
  lemma UnsortedSpec(cities: seq<City>, query: string, countryFilter: string, category: string)
    ensures forall c :: c in Unsorted(cities, query, countryFilter, category) <==>
      c in cities && Kept(c, query, countryFilter, category)
  {
    var byText := if Trim(query) != "" then Filter(cities, (c: City) => MatchesQuery(c, query)) else cities;
    var byCountry := if countryFilter != "all" then Filter(byText, (c: City) => c.country == countryFilter) else byText;
    forall c ensures c in Unsorted(cities, query, countryFilter, category) <==> c in cities && Kept(c, query, countryFilter, category) {
      if Trim(query) != "" {
        FilterMember(cities, (c: City) => MatchesQuery(c, query), c);
      }
      if countryFilter != "all" {
        FilterMember(byText, (c: City) => c.country == countryFilter, c);
      }
      if category != "all" && KnownCategory(category) {
        FilterMember(byCountry, (c: City) => InCategory(category, c), c);
      }
    }
  }

  lemma CitiesSorted(u: seq<City>, sortBy: SortBy)
    ensures multiset(Sort(u, Order(sortBy))) == multiset(u)
    ensures SortedBy(Sort(u, Order(sortBy)), Order(sortBy))
  {
    match sortBy {
      case Cost => ByKeyTotal(u, CostOrZero);
      case AZ => ByTextTotal(u, NameOf);
      case Popularity => ByKeyTotal(u, NegPopularity);
    }
    SortSorted(u, Order(sortBy));
  }

  /** A city is listed exactly when it passes every filter; the list is a
      reordering of the filtered cities, sorted by cost ascending, by name,
      or by popularity descending. */
  lemma FilteredCitiesSpec(cities: seq<City>, query: string, countryFilter: string, category: string, sortBy: SortBy)
    ensures var r := FilteredCities(cities, query, countryFilter, category, sortBy);
      && (forall c :: c in r <==> c in cities && Kept(c, query, countryFilter, category))
      && multiset(r) == multiset(Unsorted(cities, query, countryFilter, category))
      && (sortBy == Cost ==> forall i, j :: 0 <= i < j < |r| ==> CostOrZero(r[i]) <= CostOrZero(r[j]))
      && (sortBy == AZ ==> forall i, j :: 0 <= i < j < |r| ==> TextLe(r[i].name, r[j].name))
      && (sortBy == Popularity ==> forall i, j :: 0 <= i < j < |r| ==> PopularityOrZero(r[i]) >= PopularityOrZero(r[j]))
  {
    var u := Unsorted(cities, query, countryFilter, category);
    var r := FilteredCities(cities, query, countryFilter, category, sortBy);
    UnsortedSpec(cities, query, countryFilter, category);
    forall c ensures c in r <==> c in u {
      assert c in r <==> c in multiset(r);
    }
    forall i, j | 0 <= i < j < |r|
      ensures sortBy == Cost ==> CostOrZero(r[i]) <= CostOrZero(r[j])
      ensures sortBy == AZ ==> TextLe(r[i].name, r[j].name)
      ensures sortBy == Popularity ==> PopularityOrZero(r[i]) >= PopularityOrZero(r[j])
    {
      assert Order(sortBy)(r[i], r[j]);
      match sortBy {
        case Cost => assert ByKey<City>(CostOrZero)(r[i], r[j]);
        case AZ =>
          assert ByText<City>(NameOf)(r[i], r[j]);
          assert TextLe(NameOf(r[i]), NameOf(r[j]));
        case Popularity =>
          assert ByKey<City>(NegPopularity)(r[i], r[j]);
          assert NegPopularity(r[i]) <= NegPopularity(r[j]);
      }
    }
  }

  /** An unknown category key filters nothing. */
  lemma UnknownCategoryKeepsAll(cities: seq<City>, category: string)
    requires !KnownCategory(category)
    ensures Unsorted(cities, "", "all", category) == cities
  {
  }

  function Identity(s: string): string
  {
    s
  }

  /** countryOptions: "all", then every country once, sorted. */
  function CountryOptions(cities: seq<City>): seq<string>
  {
    ["all"] + Sort(Distinct(Keys(cities, CountryOf)), ByText(Identity))
  }

  function CountryOf(c: City): string
  {
    c.country
  }

  lemma CountryOptionsSpec(cities: seq<City>)
    ensures var r := CountryOptions(cities);
      && |r| >= 1 && r[0] == "all"
      && (forall k :: k in r[1..] <==> exists c :: c in cities && c.country == k)
      && (forall i, j :: 1 <= i < j < |r| ==> r[i] != r[j] && TextLe(r[i], r[j]))
  {
    var countries := Keys(cities, CountryOf);
    var s := Sort(Distinct(countries), ByText(Identity));
    var r := CountryOptions(cities);
    assert r[1..] == s;
    DistinctSpec(countries);
    SortedDistinctText(Distinct(countries), s);
    CountriesOfCities(cities);
    forall i, j | 1 <= i < j < |r| ensures r[i] != r[j] && TextLe(r[i], r[j]) {
      assert r[i] == s[i - 1] && r[j] == s[j - 1];
      assert s[i - 1] != s[j - 1] && TextLe(s[i - 1], s[j - 1]);
    }
  }

  /** The countries listed are exactly those of the cities. */
  lemma CountriesOfCities(cities: seq<City>)
    ensures forall k :: k in Keys(cities, CountryOf) <==> exists c :: c in cities && c.country == k
  {
    var countries := Keys(cities, CountryOf);
    forall k ensures (k in countries <==> exists c :: c in cities && c.country == k) {
      if k in countries {
        var i :| 0 <= i < |countries| && countries[i] == k;
        assert cities[i] in cities;
      }
    }
  }

  /** Sorting a list of texts without repeats by text order keeps its
      members, has no repeats and is ascending. */
  lemma SortedDistinctText(d: seq<string>, s: seq<string>)
    requires forall i, j :: 0 <= i < j < |d| ==> d[i] != d[j]
    requires s == Sort(d, ByText(Identity))
    ensures forall k :: k in s <==> k in d
    ensures forall i, j :: 0 <= i < j < |s| ==> s[i] != s[j] && TextLe(s[i], s[j])
  {
    ByTextTotal(d, Identity);
    SortSorted(d, ByText(Identity));
    PermutationNoRepeats(d, s);
    forall k ensures k in s <==> k in d {
      assert k in s <==> k in multiset(s);
    }
    forall i, j | 0 <= i < j < |s| ensures TextLe(s[i], s[j]) {
      assert ByText(Identity)(s[i], s[j]);
      assert TextLe(Identity(s[i]), Identity(s[j]));
    }
  }

  /** A reordering of a list without repeats has none. */
  lemma PermutationNoRepeats<T>(d: seq<T>, s: seq<T>)
    requires forall i, j :: 0 <= i < j < |d| ==> d[i] != d[j]
    requires multiset(s) == multiset(d)
    ensures forall i, j :: 0 <= i < j < |s| ==> s[i] != s[j]
  {
    forall i, j | 0 <= i < j < |s| ensures s[i] != s[j] {
      EqualPairCountsTwice(s, i, j);
      NoRepeatsCountOne(d, s[i]);
    }
  }

  lemma EqualPairCountsTwice<T>(s: seq<T>, i: nat, j: nat)
    requires i < j < |s|
    ensures s[i] == s[j] ==> multiset(s)[s[i]] >= 2
  {
    assert s == s[..i] + [s[i]] + s[i + 1..j] + [s[j]] + s[j + 1..];
  }

  lemma {:induction false} NoRepeatsCountOne<T>(s: seq<T>, x: T)
    requires forall i, j :: 0 <= i < j < |s| ==> s[i] != s[j]
    ensures multiset(s)[x] <= 1
    decreases |s|
  {
    if s != [] {
      NoRepeatsCountOne(s[1..], x);
      assert s == [s[0]] + s[1..];
      assert x == s[0] ==> x !in s[1..];
    }
  }

  datatype TripStatus = Upcoming | Ongoing | Completed

  datatype Trip = Trip(id: string, title: string, startDate: int, endDate: int, status: TripStatus,
                       cities: seq<string>)

  /** `setDate(getDate() - 7)`, taken as seven whole days. */
  const Week: int := 7 * MillisPerDay

  predicate OngoingAt(t: Trip, now: int)
  {
    t.status == Ongoing && t.startDate <= now <= t.endDate
  }

  predicate RecentlyCompleted(t: Trip, now: int)
  {
    t.status == Completed && now - Week <= t.endDate <= now
  }

  function StartOf(t: Trip): int
  {
    t.startDate
  }

  function UpcomingByStart(trips: seq<Trip>): seq<Trip>
  {
    Sort(Filter(trips, (t: Trip) => t.status == Upcoming), ByKey(StartOf))
  }

  /** mapTrip: the first ongoing trip containing now, else the first trip
      completed within the last week, else the upcoming trip that starts
      first. */
  function MapTrip(trips: seq<Trip>, now: int): (r: Option<Trip>)
    ensures r.Some? ==> r.value in trips
    ensures r.None? <==>
      forall t :: t in trips ==> !OngoingAt(t, now) && !RecentlyCompleted(t, now) && t.status != Upcoming
  {
    UpcomingByStartSpec(trips);
    match FirstIndex(trips, (t: Trip) => OngoingAt(t, now))
    case Some(i) => Some(trips[i])
    case None =>
      match FirstIndex(trips, (t: Trip) => RecentlyCompleted(t, now))
      case Some(i) => Some(trips[i])
      case None =>
        var u := UpcomingByStart(trips);
        if u == [] then None else Some(u[0])
  }

  /** The first upcoming trip by start date starts no later than any
      upcoming trip. */
  lemma UpcomingSorted(trips: seq<Trip>)
    ensures multiset(UpcomingByStart(trips)) == multiset(Filter(trips, (t: Trip) => t.status == Upcoming))
    ensures SortedBy(UpcomingByStart(trips), ByKey(StartOf))
  {
    var f := Filter(trips, (t: Trip) => t.status == Upcoming);
    ByKeyTotal(f, StartOf);
    SortSorted(f, ByKey(StartOf));
  }

  lemma UpcomingByStartSpec(trips: seq<Trip>)
    ensures var u := UpcomingByStart(trips);
      && (u != [] <==> exists t :: t in trips && t.status == Upcoming)
      && (u != [] ==>
            && u[0] in trips && u[0].status == Upcoming
            && forall t :: t in trips && t.status == Upcoming ==> u[0].startDate <= t.startDate)
  {
    var f := Filter(trips, (t: Trip) => t.status == Upcoming);
    var u := UpcomingByStart(trips);
    UpcomingSorted(trips);
    forall t | t in trips && t.status == Upcoming ensures t in multiset(u) {
      var i :| 0 <= i < |trips| && trips[i] == t;
      assert t in f;
    }
    if u != [] {
      assert u[0] in multiset(f);
      assert u[0] in f;
      forall t | t in trips && t.status == Upcoming ensures u[0].startDate <= t.startDate {
        assert t in multiset(u);
        var j :| 0 <= j < |u| && u[j] == t;
        if j > 0 {
          assert ByKey(StartOf)(u[0], u[j]);
          assert StartOf(u[0]) <= StartOf(u[j]);
        }
      }
    }
  }

  lemma MapTripPriority(trips: seq<Trip>, now: int)
    ensures var r := MapTrip(trips, now);
      && (r.Some? ==> r.value in trips)
      && ((exists t :: t in trips && OngoingAt(t, now)) ==>
            exists k :: 0 <= k < |trips| && r == Some(trips[k]) && OngoingAt(trips[k], now)
                        && forall j :: 0 <= j < k ==> !OngoingAt(trips[j], now))
      && ((forall t :: t in trips ==> !OngoingAt(t, now)) && (exists t :: t in trips && RecentlyCompleted(t, now)) ==>
            exists k :: 0 <= k < |trips| && r == Some(trips[k]) && RecentlyCompleted(trips[k], now)
                        && forall j :: 0 <= j < k ==> !RecentlyCompleted(trips[j], now))
      && ((forall t :: t in trips ==> !OngoingAt(t, now) && !RecentlyCompleted(t, now)) ==>
            && (r.Some? <==> exists t :: t in trips && t.status == Upcoming)
            && (r.Some? ==>
                  && r.value.status == Upcoming
                  && forall t :: t in trips && t.status == Upcoming ==> r.value.startDate <= t.startDate))
  {
    UpcomingByStartSpec(trips);
    var o := FirstIndex(trips, (t: Trip) => OngoingAt(t, now));
    var c := FirstIndex(trips, (t: Trip) => RecentlyCompleted(t, now));
    if exists t :: t in trips && OngoingAt(t, now) {
      var t :| t in trips && OngoingAt(t, now);
      assert o.Some?;
      assert MapTrip(trips, now) == Some(trips[o.value]);
    } else if exists t :: t in trips && RecentlyCompleted(t, now) {
      var t :| t in trips && RecentlyCompleted(t, now);
      assert o.None? && c.Some?;
      assert MapTrip(trips, now) == Some(trips[c.value]);
    }
  }

  /** The number of trips with one status. */
  function CountStatus(trips: seq<Trip>, st: TripStatus): (n: nat)
    ensures n <= |trips|
    ensures n == 0 <==> forall i :: 0 <= i < |trips| ==> trips[i].status != st
  {
    var f := Filter(trips, (t: Trip) => t.status == st);
    if f == [] then 0
    else
      assert f[0] in trips && f[0].status == st;
      |f|
  }

  /** Every trip has exactly one of the three statuses. */
  lemma {:induction false} StatusCountsPartition(trips: seq<Trip>)
    ensures CountStatus(trips, Upcoming) + CountStatus(trips, Ongoing) + CountStatus(trips, Completed) == |trips|
  {
    if trips != [] {
      StatusCountsPartition(trips[1..]);
    }
  }

  /** `reduce((acc, t) => acc + daysBetween(t.startDate, t.endDate), 0)`,
      with the same daysBetween as the itinerary builder's. */
  function PlannedDays(trips: seq<Trip>): (days: int)
    ensures days >= |trips|
    decreases |trips|
  {
    if trips == [] then 0
    else PlannedDays(trips[..|trips| - 1])
         + ItineraryBuild.DaysBetween(trips[|trips| - 1].startDate, trips[|trips| - 1].endDate)
  }

  /** `reduce((acc, t) => acc + t.cities.length, 0)`: 0 exactly when every
      trip's city list is empty. */
  function CityStops(trips: seq<Trip>): (n: nat)
    ensures n == 0 <==> forall i :: 0 <= i < |trips| ==> trips[i].cities == []
    decreases |trips|
  {
    if trips == [] then 0
    else
      var init := trips[..|trips| - 1];
      assert forall i :: 0 <= i < |init| ==> init[i] == trips[i];
      CityStops(init) + |trips[|trips| - 1].cities|
  }

  datatype Stats = Stats(upcoming: nat, ongoing: nat, completed: nat, totalCities: nat, totalDays: int)

  /** TravelStats: the trips counted per status, their city stops and their
      planned days. */
  function TravelStats(trips: seq<Trip>): (s: Stats)
    ensures s.upcoming + s.ongoing + s.completed == |trips|
    ensures s.totalDays >= |trips|
    ensures s.totalCities == 0 <==> forall i :: 0 <= i < |trips| ==> trips[i].cities == []
  {
    StatusCountsPartition(trips);
    Stats(CountStatus(trips, Upcoming), CountStatus(trips, Ongoing), CountStatus(trips, Completed),
          CityStops(trips), PlannedDays(trips))
  }

  datatype HighlightFigures = HighlightFigures(count: nat, totalDays: int, totalBudget: int)

  /** The trips Highlights calls upcoming: those whose end is not yet past,
      whatever their status. */
  function NotEnded(trips: seq<Trip>, now: int): (r: seq<Trip>)
    ensures forall t :: t in r <==> t in trips && t.endDate >= now
  {
    FilterMembers(trips, (t: Trip) => t.endDate >= now);
    Filter(trips, (t: Trip) => t.endDate >= now)
  }

  /** The sum of the budget estimates; the estimate itself is a parameter. */
  function EstimateTotal(trips: seq<Trip>, estimate: Trip -> int): int
    decreases |trips|
  {
    if trips == [] then 0 else EstimateTotal(trips[..|trips| - 1], estimate) + estimate(trips[|trips| - 1])
  }

  /** Highlights: the count, planned days and estimated budget of the trips
      that have not ended. */
  function Highlights(trips: seq<Trip>, now: int, estimate: Trip -> int): (h: HighlightFigures)
    ensures h.count == |NotEnded(trips, now)| <= |trips|
    ensures h.totalDays == PlannedDays(NotEnded(trips, now)) >= h.count
    ensures h.totalBudget == EstimateTotal(NotEnded(trips, now), estimate)
    ensures h.count == 0 ==> h.totalDays == 0 && h.totalBudget == 0
  {
    var u := NotEnded(trips, now);
    HighlightFigures(|u|, PlannedDays(u), EstimateTotal(u, estimate))
  }
}

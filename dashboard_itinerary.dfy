/** The itinerary path drawn on the dashboard map
    (frontend/src/pages/Dashboard.tsx): the sections of the map trip are
    visited in start order, each activity they reference is resolved to a
    city with coordinates, and the visits are merged into one entry per
    city holding its earliest start and latest end, ordered by that start.
    Dates are milliseconds; the section request is a parameter, with a
    failed request giving no sections. */
module DashboardItinerary {
  import opened Common
  import opened Collections
  import opened Sorting
  import opened Dashboard

  /** `activity.cityId`: an id, or the populated city's fields ("" when
      missing). */
  datatype CityRef = IdRef(id: string) | Embedded(id: string, name: string, country: string)

  datatype Activity = Activity(id: string, cityRef: CityRef)

  datatype SectionRef = SectionRef(startDate: int, endDate: int, activities: seq<string>)

  /** One resolved activity reference: its city and its section's dates. */
  datatype Hit = Hit(city: City, start: int, end: int)

  /** The per-city record of the merge. */
  datatype Agg = Agg(city: City, start: int, end: int, firstTs: int)

  datatype MapCity = MapCity(city: City, startDate: int, endDate: int)

  /** findCity by name, restricted to a country when one is given. */
  function FindByName(cities: seq<City>, name: string, country: string): (r: Option<City>)
    ensures r.Some? ==> r.value in cities && r.value.hasCoordinates && r.value.name == name
    ensures r.Some? && country != "" ==> r.value.country == country
  {
    match FirstIndex(cities, (c: City) => c.name == name && (country == "" || c.country == country))
    case Some(i) => if cities[i].hasCoordinates then Some(cities[i]) else None
    case None => None
  }

  /** findCity: the first city with the id if it has coordinates, else the
      first with the name (and country), if it has coordinates. */
  function FindCity(cities: seq<City>, idOrName: string, country: string): (r: Option<City>)
    ensures idOrName == "" ==> r.None?
    ensures r.Some? ==> r.value in cities && r.value.hasCoordinates
    ensures r.Some? ==> r.value.id == idOrName || r.value.name == idOrName
  {
    if idOrName == "" then None
    else
      match FirstIndex(cities, (c: City) => c.id == idOrName)
      case Some(i) => if cities[i].hasCoordinates then Some(cities[i]) else FindByName(cities, idOrName, country)
      case None => FindByName(cities, idOrName, country)
  }

  /** The first city carrying the id wins when it has coordinates;
      otherwise the first city with the name (in the country, when one is
      given) is taken if it has coordinates, and nothing else is. */
  lemma FindCitySpec(cities: seq<City>, idOrName: string, country: string, i: nat)
    requires idOrName != "" && i < |cities|
    ensures (cities[i].id == idOrName && cities[i].hasCoordinates
             && forall j :: 0 <= j < i ==> cities[j].id != idOrName)
      ==> FindCity(cities, idOrName, country) == Some(cities[i])
    ensures (forall j :: 0 <= j < |cities| ==> cities[j].id != idOrName || !cities[j].hasCoordinates)
      && cities[i].name == idOrName && (country == "" || cities[i].country == country)
      && (forall j :: 0 <= j < i ==> !(cities[j].name == idOrName && (country == "" || cities[j].country == country)))
      ==> FindCity(cities, idOrName, country) == (if cities[i].hasCoordinates then Some(cities[i]) else None)
  {
    var byId := FirstIndex(cities, (c: City) => c.id == idOrName);
    if byId.Some? && cities[byId.value].hasCoordinates && cities[i].id == idOrName
       && forall j :: 0 <= j < i ==> cities[j].id != idOrName {
      assert byId.value == i;
    }
  }

  /** The city an activity reference leads to, if any. */
  function Resolve(actId: string, acts: seq<Activity>, cities: seq<City>): (r: Option<City>)
    ensures r.Some? ==> r.value in cities && r.value.hasCoordinates
  {
    match FirstIndex(acts, (a: Activity) => a.id == actId)
    case None => None
    case Some(i) =>
      match acts[i].cityRef
      case IdRef(id) => FindCity(cities, id, "")
      case Embedded(id, name, country) => FindCity(cities, if id != "" then id else name, country)
  }

  function RefHits(sec: SectionRef, refs: seq<string>, acts: seq<Activity>, cities: seq<City>): (r: seq<Hit>)
    ensures forall h :: h in r ==> h.start == sec.startDate && h.end == sec.endDate && h.city in cities
    decreases |refs|
  {
    if refs == [] then []
    else
      var init := RefHits(sec, refs[..|refs| - 1], acts, cities);
      match Resolve(refs[|refs| - 1], acts, cities)
      case Some(c) => init + [Hit(c, sec.startDate, sec.endDate)]
      case None => init
  }

  /** Every resolved reference of the sections, in visiting order; each
      carries the dates of a section that references its city. */
  function SectionHits(secs: seq<SectionRef>, acts: seq<Activity>, cities: seq<City>): (r: seq<Hit>)
    ensures forall h :: h in r ==> h.city in cities && exists s :: s in secs && h.start == s.startDate && h.end == s.endDate
    decreases |secs|
  {
    if secs == [] then []
    else
      var last := secs[|secs| - 1];
      SectionHits(secs[..|secs| - 1], acts, cities) + RefHits(last, last.activities, acts, cities)
  }

  /** The merge state: keys in insertion order and the map itself. */
  datatype AggState = AggState(keys: seq<string>, agg: map<string, Agg>)

  /** One `aggMap` update: a city id met before widens its record, a new
      one is appended with the hit's dates. */
  function Merge(st: AggState, h: Hit): (r: AggState)
    ensures h.city.id in r.agg
    ensures r.keys == if h.city.id in st.agg then st.keys else st.keys + [h.city.id]
  {
    var key := h.city.id;
    if key in st.agg then
      var e := st.agg[key];
      AggState(st.keys, st.agg[key := Agg(e.city, if h.start < e.start then h.start else e.start,
                                          if h.end > e.end then h.end else e.end,
                                          if h.start < e.firstTs then h.start else e.firstTs)])
    else
      AggState(st.keys + [key], st.agg[key := Agg(h.city, h.start, h.end, h.start)])
  }

  /** The records of `hits` merged in order; AggregateSpec states what
      they hold. */
  function Aggregate(hits: seq<Hit>): (r: AggState)
    ensures |r.keys| <= |hits|
    decreases |hits|
  {
    if hits == [] then AggState([], map[]) else Merge(Aggregate(hits[..|hits| - 1]), hits[|hits| - 1])
  }

  /** The keys are distinct and are exactly the map's keys. */
  ghost predicate KeysOk(st: AggState)
  {
    && (forall i, j :: 0 <= i < j < |st.keys| ==> st.keys[i] != st.keys[j])
    && (forall k :: k in st.agg <==> k in st.keys)
  }

  /** The record kept for city id k: the city of a visit, the earliest
      start and the latest end of the visits to k, and firstTs == start. */
  ghost predicate RecordOk(a: Agg, hits: seq<Hit>, k: string)
  {
    && a.city.id == k
    && a.firstTs == a.start
    && (exists h :: h in hits && h.city == a.city)
    && (exists h :: h in hits && h.city.id == k && h.start == a.start)
    && (exists h :: h in hits && h.city.id == k && h.end == a.end)
    && (forall h :: h in hits && h.city.id == k ==> a.start <= h.start && h.end <= a.end)
  }

  /** The merge holds one record per city id met, in order of first visit. */
  ghost predicate MergedFrom(st: AggState, hits: seq<Hit>)
  {
    && KeysOk(st)
    && (forall k :: k in st.agg <==> exists h :: h in hits && h.city.id == k)
    && (forall k | k in st.agg :: RecordOk(st.agg[k], hits, k))
  }

  /** A merge keeps the keys distinct and equal to the map's keys. */
  lemma MergeKeys(st: AggState, h: Hit)
    requires KeysOk(st)
    ensures KeysOk(Merge(st, h))
  {
  }

  lemma MergeCovers(st: AggState, hits: seq<Hit>, h: Hit)
    requires forall k :: k in st.agg <==> exists x :: x in hits && x.city.id == k
    ensures forall k :: k in Merge(st, h).agg <==> exists x :: x in hits + [h] && x.city.id == k
  {
    var r := Merge(st, h);
    forall k ensures k in r.agg <==> exists x :: x in hits + [h] && x.city.id == k {
      assert h in hits + [h];
      if k in st.agg {
        var x :| x in hits && x.city.id == k;
        assert x in hits + [h];
      }
      if exists x :: x in hits + [h] && x.city.id == k {
        var x :| x in hits + [h] && x.city.id == k;
        if x != h {
          assert x in hits;
        }
      }
    }
  }

  lemma RecordExtend(a: Agg, hits: seq<Hit>, h: Hit, k: string)
    requires RecordOk(a, hits, k)
    requires h.city.id != k
    ensures RecordOk(a, hits + [h], k)
  {
    var x :| x in hits && x.city == a.city;
    var y :| y in hits && y.city.id == k && y.start == a.start;
    var z :| z in hits && z.city.id == k && z.end == a.end;
    assert x in hits + [h] && y in hits + [h] && z in hits + [h];
    forall w | w in hits + [h] && w.city.id == k ensures a.start <= w.start && w.end <= a.end {
      assert w in hits;
    }
  }

  lemma RecordMerge(a: Agg, hits: seq<Hit>, h: Hit)
    requires RecordOk(a, hits, h.city.id)
    ensures RecordOk(Agg(a.city, if h.start < a.start then h.start else a.start,
                         if h.end > a.end then h.end else a.end,
                         if h.start < a.firstTs then h.start else a.firstTs), hits + [h], h.city.id)
  {
    var k := h.city.id;
    var x :| x in hits && x.city == a.city;
    var y :| y in hits && y.city.id == k && y.start == a.start;
    var z :| z in hits && z.city.id == k && z.end == a.end;
    assert x in hits + [h] && y in hits + [h] && z in hits + [h] && h in hits + [h];
    forall w | w in hits + [h] && w.city.id == k
      ensures (if h.start < a.start then h.start else a.start) <= w.start
      ensures w.end <= (if h.end > a.end then h.end else a.end)
    {
      if w != h {
        assert w in hits;
      }
    }
  }

  lemma RecordNew(hits: seq<Hit>, h: Hit)
    requires forall x :: x in hits ==> x.city.id != h.city.id
    ensures RecordOk(Agg(h.city, h.start, h.end, h.start), hits + [h], h.city.id)
  {
    assert h in hits + [h];
    forall w | w in hits + [h] && w.city.id == h.city.id ensures h.start <= w.start && w.end <= h.end {
      InAppended(hits, h, w);
    }
  }

  lemma InAppended<T>(s: seq<T>, x: T, w: T)
    ensures w in s + [x] <==> w == x || w in s
  {
  }

  lemma MergeStep(st: AggState, hits: seq<Hit>, h: Hit)
    requires MergedFrom(st, hits)
    ensures MergedFrom(Merge(st, h), hits + [h])
  {
    var r := Merge(st, h);
    MergeCovers(st, hits, h);
    MergeKeys(st, h);
    var key := h.city.id;
    if key in st.agg {
      RecordMerge(st.agg[key], hits, h);
    } else {
      RecordNew(hits, h);
    }
    forall k | k in r.agg ensures RecordOk(r.agg[k], hits + [h], k) {
      if k != key {
        RecordExtend(st.agg[k], hits, h, k);
      }
    }
  }

  /** The aggregate holds one record per city id met, in order of first
      visit, spanning from the earliest start to the latest end. */
  lemma {:induction false} AggregateSpec(hits: seq<Hit>)
    ensures MergedFrom(Aggregate(hits), hits)
    decreases |hits|
  {
    if hits != [] {
      var init := hits[..|hits| - 1];
      AggregateSpec(init);
      MergeStep(Aggregate(init), init, hits[|hits| - 1]);
      assert init + [hits[|hits| - 1]] == hits;
    }
  }

  function FirstTsOf(a: Agg): int
  {
    a.firstTs
  }

  function SecStart(s: SectionRef): int
  {
    s.startDate
  }

  /** `Array.from(aggMap.values())`: the records in insertion order. */
  function Values(st: AggState): (v: seq<Agg>)
    requires forall k :: k in st.keys ==> k in st.agg
    ensures |v| == |st.keys| && forall n :: 0 <= n < |v| ==> v[n] == st.agg[st.keys[n]]
  {
    seq(|st.keys|, i requires 0 <= i < |st.keys| => st.agg[st.keys[i]])
  }

  /** The records sorted by firstTs (a stable sort). */
  function SortedValues(st: AggState): seq<Agg>
    requires forall k :: k in st.keys ==> k in st.agg
  {
    Sort(Values(st), ByKey(FirstTsOf))
  }

  /** The records as map entries. */
  function Ordered(st: AggState): (r: seq<MapCity>)
    requires forall k :: k in st.keys ==> k in st.agg
    ensures |r| == |SortedValues(st)|
    ensures forall i :: 0 <= i < |r| ==> r[i] == MapCity(SortedValues(st)[i].city, SortedValues(st)[i].start, SortedValues(st)[i].end)
  {
    var sorted := SortedValues(st);
    seq(|sorted|, i requires 0 <= i < |sorted| => MapCity(sorted[i].city, sorted[i].start, sorted[i].end))
  }

  /** The itinerary cities of a map trip's sections. */
  function ItineraryCities(sections: seq<SectionRef>, acts: seq<Activity>, cities: seq<City>): seq<MapCity>
  {
    var hits := SectionHits(Sort(sections, ByKey(SecStart)), acts, cities);
    AggregateSpec(hits);
    Ordered(Aggregate(hits))
  }

  /** Each record is stored under its city's id. */
  ghost predicate IdsMatch(st: AggState)
  {
    forall k | k in st.agg :: st.agg[k].city.id == k
  }

  lemma SortedValuesAreRecords(st: AggState)
    requires KeysOk(st)
    ensures var sv := SortedValues(st);
      forall i :: 0 <= i < |sv| ==> exists k :: k in st.agg && sv[i] == st.agg[k]
  {
    var values := Values(st);
    var sv := SortedValues(st);
    forall i | 0 <= i < |sv| ensures exists k :: k in st.agg && sv[i] == st.agg[k] {
      RecordInValues(st, sv[i]);
    }
  }

  lemma RecordInValues(st: AggState, a: Agg)
    requires KeysOk(st)
    requires a in multiset(SortedValues(st))
    ensures exists k :: k in st.agg && a == st.agg[k]
  {
    var values := Values(st);
    assert a in multiset(values);
    var n :| 0 <= n < |values| && values[n] == a;
    assert st.keys[n] in st.agg;
  }

  lemma RecordsInSortedValues(st: AggState)
    requires KeysOk(st)
    ensures var sv := SortedValues(st);
      forall k :: k in st.agg ==> exists i :: 0 <= i < |sv| && sv[i] == st.agg[k]
  {
    var values := Values(st);
    var sv := SortedValues(st);
    forall k | k in st.agg ensures exists i :: 0 <= i < |sv| && sv[i] == st.agg[k] {
      var n :| 0 <= n < |st.keys| && st.keys[n] == k;
      assert values[n] in multiset(sv);
    }
  }

  lemma ValuesDistinct(st: AggState)
    requires KeysOk(st) && IdsMatch(st)
    ensures var v := Values(st);
      forall i, j :: 0 <= i < j < |v| ==> v[i].city.id != v[j].city.id
  {
    var v := Values(st);
    forall i, j | 0 <= i < j < |v| ensures v[i].city.id != v[j].city.id {
      assert v[i].city.id == st.keys[i];
      assert v[j].city.id == st.keys[j];
    }
  }

  lemma SortedValuesDistinct(st: AggState)
    requires KeysOk(st) && IdsMatch(st)
    ensures var sv := SortedValues(st);
      forall i, j :: 0 <= i < j < |sv| ==> sv[i].city.id != sv[j].city.id
  {
    var values := Values(st);
    var sv := SortedValues(st);
    ValuesDistinct(st);
    forall i, j | 0 <= i < j < |values| ensures values[i] != values[j] {
    }
    Dashboard.PermutationNoRepeats(values, sv);
    SortedValuesAreRecords(st);
    forall i, j | 0 <= i < j < |sv| ensures sv[i].city.id != sv[j].city.id {
      var ki :| ki in st.agg && sv[i] == st.agg[ki];
      var kj :| kj in st.agg && sv[j] == st.agg[kj];
      assert ki != kj;
    }
  }

  lemma SortedValuesOrdered(st: AggState)
    requires forall k :: k in st.keys ==> k in st.agg
    ensures var sv := SortedValues(st);
      forall i, j :: 0 <= i < j < |sv| ==> sv[i].firstTs <= sv[j].firstTs
  {
    var values := Values(st);
    var sv := SortedValues(st);
    ByKeyTotal(values, FirstTsOf);
    SortSorted(values, ByKey(FirstTsOf));
    forall i, j | 0 <= i < j < |sv| ensures sv[i].firstTs <= sv[j].firstTs {
      assert ByKey(FirstTsOf)(sv[i], sv[j]);
      assert FirstTsOf(sv[i]) <= FirstTsOf(sv[j]);
    }
  }

  /** A map entry's dates are the earliest start and the latest end of
      the visits to its city, which is one of the visited cities. */
  ghost predicate EntryOk(e: MapCity, hits: seq<Hit>)
  {
    && (exists h :: h in hits && h.city == e.city)
    && (exists h :: h in hits && h.city.id == e.city.id && h.start == e.startDate)
    && (exists h :: h in hits && h.city.id == e.city.id && h.end == e.endDate)
    && (forall h :: h in hits && h.city.id == e.city.id ==> e.startDate <= h.start && h.end <= e.endDate)
  }

  lemma EntriesOk(st: AggState, hits: seq<Hit>)
    requires MergedFrom(st, hits)
    ensures var r := Ordered(st);
      forall i :: 0 <= i < |r| ==> EntryOk(r[i], hits)
  {
    var r := Ordered(st);
    var sv := SortedValues(st);
    SortedValuesAreRecords(st);
    forall i | 0 <= i < |r| ensures EntryOk(r[i], hits) {
      var k :| k in st.agg && sv[i] == st.agg[k];
      assert RecordOk(st.agg[k], hits, k);
    }
  }

  lemma EntriesCover(st: AggState, hits: seq<Hit>)
    requires MergedFrom(st, hits)
    ensures var r := Ordered(st);
      forall h :: h in hits ==> exists i :: 0 <= i < |r| && r[i].city.id == h.city.id
  {
    var r := Ordered(st);
    var sv := SortedValues(st);
    RecordsInSortedValues(st);
    forall h | h in hits ensures exists i :: 0 <= i < |r| && r[i].city.id == h.city.id {
      var k := h.city.id;
      assert k in st.agg;
      var i :| 0 <= i < |sv| && sv[i] == st.agg[k];
      assert RecordOk(st.agg[k], hits, k);
      assert r[i].city.id == k;
    }
  }

  lemma EntriesOrdered(st: AggState, hits: seq<Hit>)
    requires MergedFrom(st, hits)
    ensures var r := Ordered(st);
      forall i, j :: 0 <= i < j < |r| ==> r[i].city.id != r[j].city.id && r[i].startDate <= r[j].startDate
  {
    var r := Ordered(st);
    var sv := SortedValues(st);
    assert IdsMatch(st) by {
      forall k | k in st.agg ensures st.agg[k].city.id == k {
        assert RecordOk(st.agg[k], hits, k);
      }
    }
    SortedValuesDistinct(st);
    SortedValuesOrdered(st);
    SortedValuesAreRecords(st);
    forall i | 0 <= i < |sv| ensures sv[i].firstTs == sv[i].start {
      var k :| k in st.agg && sv[i] == st.agg[k];
      assert RecordOk(st.agg[k], hits, k);
    }
  }

  /** The dashboard's itinerary cities: for the sections sorted by start,
      one entry per city their activities lead to, with the earliest
      section start and the latest section end among them, ordered by
      that start; every city drawn is a known city with coordinates. */
  lemma ItineraryCitiesSpec(sections: seq<SectionRef>, acts: seq<Activity>, cities: seq<City>)
    ensures var r := ItineraryCities(sections, acts, cities);
      var hits := SectionHits(Sort(sections, ByKey(SecStart)), acts, cities);
      && (forall i, j :: 0 <= i < j < |r| ==> r[i].city.id != r[j].city.id && r[i].startDate <= r[j].startDate)
      && (forall h :: h in hits ==> exists i :: 0 <= i < |r| && r[i].city.id == h.city.id)
      && (forall i :: 0 <= i < |r| ==> r[i].city in cities && r[i].city.hasCoordinates && EntryOk(r[i], hits))
  {
    var sorted := Sort(sections, ByKey(SecStart));
    ItineraryOfSorted(sorted, acts, cities);
    assert ItineraryCities(sections, acts, cities) == Ordered(Aggregate(SectionHits(sorted, acts, cities)));
    assert ItineraryOk(ItineraryCities(sections, acts, cities), SectionHits(sorted, acts, cities), cities);
  }

  lemma ItineraryOfSorted(sorted: seq<SectionRef>, acts: seq<Activity>, cities: seq<City>)
    ensures forall k :: k in Aggregate(SectionHits(sorted, acts, cities)).keys ==> k in Aggregate(SectionHits(sorted, acts, cities)).agg
    ensures ItineraryOk(Ordered(Aggregate(SectionHits(sorted, acts, cities))), SectionHits(sorted, acts, cities), cities)
  {
    var hits := SectionHits(sorted, acts, cities);
    AggregateSpec(hits);
    HitsResolved(sorted, acts, cities);
    OrderedSpec(Aggregate(hits), hits, cities);
  }

  /** The entries are distinct cities ordered by start, cover every hit,
      and are known cities with coordinates whose dates span their hits. */
  ghost predicate ItineraryOk(r: seq<MapCity>, hits: seq<Hit>, cities: seq<City>)
  {
    && (forall i, j :: 0 <= i < j < |r| ==> r[i].city.id != r[j].city.id && r[i].startDate <= r[j].startDate)
    && (forall h :: h in hits ==> exists i :: 0 <= i < |r| && r[i].city.id == h.city.id)
    && (forall i :: 0 <= i < |r| ==> r[i].city in cities && r[i].city.hasCoordinates && EntryOk(r[i], hits))
  }

  /** The ordered entries of an aggregate of resolved hits. */
  lemma OrderedSpec(st: AggState, hits: seq<Hit>, cities: seq<City>)
    requires MergedFrom(st, hits)
    requires forall h :: h in hits ==> h.city in cities && h.city.hasCoordinates
    ensures ItineraryOk(Ordered(st), hits, cities)
  {
    EntriesOrdered(st, hits);
    EntriesCover(st, hits);
    EntriesOk(st, hits);
    EntriesResolved(st, hits, cities);
  }

  /** Every entry's city is the city of some hit, so it is a known city
      with coordinates when every hit's is. */
  lemma EntriesResolved(st: AggState, hits: seq<Hit>, cities: seq<City>)
    requires MergedFrom(st, hits)
    requires forall h :: h in hits ==> h.city in cities && h.city.hasCoordinates
    ensures forall i :: 0 <= i < |Ordered(st)| ==> Ordered(st)[i].city in cities && Ordered(st)[i].city.hasCoordinates
  {
    var r := Ordered(st);
    EntriesOk(st, hits);
    forall i | 0 <= i < |r| ensures r[i].city in cities && r[i].city.hasCoordinates {
      assert EntryOk(r[i], hits);
      var h :| h in hits && h.city == r[i].city;
    }
  }

  lemma {:induction false} RefHitsResolved(sec: SectionRef, refs: seq<string>, acts: seq<Activity>, cities: seq<City>)
    ensures forall h :: h in RefHits(sec, refs, acts, cities) ==> h.city.hasCoordinates
    decreases |refs|
  {
    if refs != [] {
      RefHitsResolved(sec, refs[..|refs| - 1], acts, cities);
    }
  }

  lemma {:induction false} HitsResolved(secs: seq<SectionRef>, acts: seq<Activity>, cities: seq<City>)
    ensures forall h :: h in SectionHits(secs, acts, cities) ==> h.city.hasCoordinates
    decreases |secs|
  {
    if secs != [] {
      HitsResolved(secs[..|secs| - 1], acts, cities);
      RefHitsResolved(secs[|secs| - 1], secs[|secs| - 1].activities, acts, cities);
    }
  }

  lemma AggregateSnoc(xs: seq<Hit>, h: Hit)
    ensures Aggregate(xs + [h]) == Merge(Aggregate(xs), h)
  {
    assert (xs + [h])[..|xs|] == xs;
  }

  lemma RefHitsSnoc(sec: SectionRef, refs: seq<string>, j: nat, acts: seq<Activity>, cities: seq<City>)
    requires j < |refs|
    ensures Resolve(refs[j], acts, cities).Some? ==>
      RefHits(sec, refs[..j + 1], acts, cities)
        == RefHits(sec, refs[..j], acts, cities) + [Hit(Resolve(refs[j], acts, cities).value, sec.startDate, sec.endDate)]
    ensures Resolve(refs[j], acts, cities).None? ==>
      RefHits(sec, refs[..j + 1], acts, cities) == RefHits(sec, refs[..j], acts, cities)
  {
    assert refs[..j + 1][..j] == refs[..j];
  }

  /** One reference more: its hit, if it resolves, is merged into the
      aggregate so far. */
  lemma AddRefStep(before: seq<Hit>, sec: SectionRef, j: nat, acts: seq<Activity>, cities: seq<City>)
    requires j < |sec.activities|
    ensures var found := Resolve(sec.activities[j], acts, cities);
      var st := Aggregate(before + RefHits(sec, sec.activities[..j], acts, cities));
      Aggregate(before + RefHits(sec, sec.activities[..j + 1], acts, cities))
        == if found.Some? then Merge(st, Hit(found.value, sec.startDate, sec.endDate)) else st
  {
    var done := RefHits(sec, sec.activities[..j], acts, cities);
    RefHitsSnoc(sec, sec.activities, j, acts, cities);
    var found := Resolve(sec.activities[j], acts, cities);
    if found.Some? {
      var h := Hit(found.value, sec.startDate, sec.endDate);
      AggregateSnoc(before + done, h);
      assert before + (done + [h]) == (before + done) + [h];
    }
  }

  lemma SectionHitsSnoc(secs: seq<SectionRef>, i: nat, acts: seq<Activity>, cities: seq<City>)
    requires i < |secs|
    ensures SectionHits(secs[..i + 1], acts, cities)
      == SectionHits(secs[..i], acts, cities) + RefHits(secs[i], secs[i].activities, acts, cities)
  {
    assert secs[..i + 1][..i] == secs[..i];
  }

  /** The effect that loads the map trip's sections (a failed request
      gives none) and builds its itinerary cities: no trip or no section
      gives an empty path, otherwise the cities of ItineraryCities. */
  method LoadItinerary(mapTrip: Option<Trip>, sections: seq<SectionRef>, acts: seq<Activity>, cities: seq<City>)
    returns (r: seq<MapCity>)
    ensures mapTrip.None? || sections == [] ==> r == []
    ensures mapTrip.Some? ==> r == ItineraryCities(sections, acts, cities)
  {
    if mapTrip.None? {
      return [];
    }
    if sections == [] {
      assert SectionHits(Sort(sections, ByKey(SecStart)), acts, cities) == [];
      return [];
    }
    var sorted := Sort(sections, ByKey(SecStart));
    var st := AggState([], map[]);
    var i := 0;
    while i < |sorted|
      invariant 0 <= i <= |sorted|
      invariant st == Aggregate(SectionHits(sorted[..i], acts, cities))
    {
      st := AddSection(st, sorted[i], acts, cities, SectionHits(sorted[..i], acts, cities));
      SectionHitsSnoc(sorted, i, acts, cities);
      i := i + 1;
    }
    assert sorted[..i] == sorted;
    AggregateSpec(SectionHits(sorted, acts, cities));
    r := Ordered(st);
  }

  /** The inner loop over one section's activity references: each one that
      resolves to a city is merged into the aggregate. */
  method AddSection(st0: AggState, sec: SectionRef, acts: seq<Activity>, cities: seq<City>, ghost before: seq<Hit>)
    returns (st: AggState)
    requires st0 == Aggregate(before)
    ensures st == Aggregate(before + RefHits(sec, sec.activities, acts, cities))
  {
    st := st0;
    var j := 0;
    assert before + RefHits(sec, sec.activities[..0], acts, cities) == before;
    while j < |sec.activities|
      invariant 0 <= j <= |sec.activities|
      invariant st == Aggregate(before + RefHits(sec, sec.activities[..j], acts, cities))
    {
      AddRefStep(before, sec, j, acts, cities);
      var found := Resolve(sec.activities[j], acts, cities);
      if found.Some? {
        st := Merge(st, Hit(found.value, sec.startDate, sec.endDate));
      }
      j := j + 1;
    }
    assert sec.activities[..j] == sec.activities;
  }
}

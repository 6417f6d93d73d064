/** The two handlers of backend/routes/searchRoutes.js as functions of the
    query, the compiled pattern and the two collections. `new RegExp(q, "i")`
    is a parameter: None when q is not a valid pattern (the constructor
    throws and the handler answers 500), otherwise the case-insensitive
    match test. A `find` returns documents in collection order; `populate`
    looks the city up by id and leaves null when it is gone. */
module SearchRoutes {
  import opened Common
  import opened Collections

  type Id = nat

  datatype City = City(id: Id, name: string, country: string)

  datatype Activity = Activity(id: Id, name: string, cityId: Id, category: Option<string>)

  /** An activity with its `cityId` populated. */
  datatype Populated = Populated(activity: Activity, city: Option<City>)

  datatype SearchReply =
    | BadRequest                                     // 400 "Search query is required"
    | CityHit(city: City, activities: seq<Activity>) // { type: "city", ... }
    | ActivityHit(matched: seq<Populated>, cities: seq<City>, similar: seq<Populated>)
    | NoResults                                      // 404 "No results found"
    | ServerError                                    // 500 "Server error"

  /** `!q || q.trim() === ""`; an absent parameter is None. */
  predicate Blank(q: Option<string>)
  {
    q.None? || Trim(q.value) == ""
  }

  function Populate(cities: seq<City>, a: Activity): (p: Populated)
    ensures p.activity == a
    ensures p.city.Some? ==> p.city.value in cities && p.city.value.id == a.cityId
    ensures p.city.None? <==> forall j :: 0 <= j < |cities| ==> cities[j].id != a.cityId
  {
    match FirstIndex(cities, (c: City) => c.id == a.cityId)
    case Some(j) => Populated(a, Some(cities[j]))
    case None => Populated(a, None)
  }

  function PopulateAll(cities: seq<City>, acts: seq<Activity>): (r: seq<Populated>)
    ensures |r| == |acts|
    ensures forall i :: 0 <= i < |acts| ==> r[i] == Populate(cities, acts[i])
  {
    seq(|acts|, i requires 0 <= i < |acts| => Populate(cities, acts[i]))
  }

  function ActivityIds(found: seq<Populated>): (ids: seq<Id>)
    ensures |ids| == |found|
    ensures forall i :: 0 <= i < |found| ==> ids[i] == found[i].activity.id
  {
    seq(|found|, i requires 0 <= i < |found| => found[i].activity.id)
  }

  /** `activities[0]?.category` is truthy. */
  predicate HasCategory(c: Option<string>)
  {
    c.Some? && c.value != ""
  }

  /** `City.find({ name: regex })`, in collection order. */
  function MatchingCities(cities: seq<City>, matches: string -> bool): (r: seq<City>)
    ensures forall i :: 0 <= i < |r| ==> r[i] in cities && matches(r[i].name)
    ensures forall j :: 0 <= j < |cities| && matches(cities[j].name) ==> cities[j] in r
  {
    Filter(cities, (c: City) => matches(c.name))
  }

  /** `Activity.find({ name: regex })`, in collection order. */
  function MatchingActivities(activities: seq<Activity>, matches: string -> bool): (r: seq<Activity>)
    ensures forall i :: 0 <= i < |r| ==> r[i] in activities && matches(r[i].name)
    ensures forall j :: 0 <= j < |activities| && matches(activities[j].name) ==> activities[j] in r
  {
    Filter(activities, (a: Activity) => matches(a.name))
  }

  /** The populated cities of the matches, once none of them is null. */
  function Located(found: seq<Populated>): (r: seq<City>)
    requires forall i :: 0 <= i < |found| ==> found[i].city.Some?
    ensures |r| == |found| && forall i :: 0 <= i < |found| ==> r[i] == found[i].city.value
  {
    seq(|found|, i requires 0 <= i < |found| => found[i].city.value)
  }

  /** `Activity.find({ category, _id: { $nin: ids } })`, in collection
      order; the `.limit(5)` is applied by the caller. */
  function SimilarPool(activities: seq<Activity>, category: Option<string>, ids: seq<Id>): (r: seq<Activity>)
    ensures forall i :: 0 <= i < |r| ==> r[i] in activities && r[i].category == category && r[i].id !in ids
    ensures forall j :: 0 <= j < |activities| && activities[j].category == category && activities[j].id !in ids ==>
      activities[j] in r
    ensures IsSubsequence(r, activities)
  {
    FilterSubsequence(activities, (a: Activity) => a.category == category && a.id !in ids);
    Filter(activities, (a: Activity) => a.category == category && a.id !in ids)
  }

  /** The activity branch once no city matched: 404 when nothing matched,
      a server error when a matched activity's city is gone (reading
      `a.cityId._id` of null throws), otherwise the matches, their distinct
      cities and up to five similar activities. */
  function ActivityBranch(cities: seq<City>, activities: seq<Activity>, named: seq<Activity>): (r: SearchReply)
    ensures r.NoResults? <==> named == []
    ensures r.NoResults? || r.ServerError? || r.ActivityHit?
    ensures r.ServerError? <==> named != [] && exists i | 0 <= i < |named| :: Populate(cities, named[i]).city.None?
    ensures r.ActivityHit? ==> r.matched == PopulateAll(cities, named)
  {
    var found := PopulateAll(cities, named);
    if |found| == 0 then NoResults
    else if exists i | 0 <= i < |found| :: found[i].city.None? then ServerError
    else
      ActivityHit(found, MapValues(Located(found), (c: City) => c.id), Similar(cities, activities, found))
  }

  /** `similar`: up to five activities of the first match's category that
      are not matches, each populated; none when that category is missing
      or empty. */
  function Similar(cities: seq<City>, activities: seq<Activity>, found: seq<Populated>): (r: seq<Populated>)
    requires found != []
    ensures |r| <= 5
    ensures !HasCategory(found[0].activity.category) ==> r == []
  {
    var category := found[0].activity.category;
    if HasCategory(category) then PopulateAll(cities, Take(SimilarPool(activities, category, ActivityIds(found)), 5))
    else []
  }

  /** GET /: a blank query is refused before the pattern is built; a city
      whose name matches wins over every activity; the activity search runs
      only when no city name matches. */
  function Search(q: Option<string>, pattern: Option<string -> bool>, cities: seq<City>,
                  activities: seq<Activity>): (r: SearchReply)
    ensures r.BadRequest? <==> Blank(q)
    ensures !Blank(q) && pattern.None? ==> r.ServerError?
    ensures r.CityHit? <==> !Blank(q) && pattern.Some? && MatchingCities(cities, pattern.value) != []
    ensures r.CityHit? ==>
      && r.city == MatchingCities(cities, pattern.value)[0]
      && (forall i :: 0 <= i < |r.activities| ==> r.activities[i] in activities && r.activities[i].cityId == r.city.id)
      && (forall i :: 0 <= i < |activities| && activities[i].cityId == r.city.id ==> activities[i] in r.activities)
    ensures r.NoResults? <==>
      && !Blank(q) && pattern.Some?
      && MatchingCities(cities, pattern.value) == [] && MatchingActivities(activities, pattern.value) == []
    ensures r.ActivityHit? ==>
      && MatchingCities(cities, pattern.value) == []
      && r.matched == PopulateAll(cities, MatchingActivities(activities, pattern.value))
  {
    if Blank(q) then BadRequest
    else if pattern.None? then ServerError
    else
      var cs := MatchingCities(cities, pattern.value);
      if cs != [] then
        CityHit(cs[0], Filter(activities, (a: Activity) => a.cityId == cs[0].id))
      else
        ActivityBranch(cities, activities, MatchingActivities(activities, pattern.value))
  }

  /** The matched activities of an activity result are exactly the
      activities whose name matches, each with its city. */
  lemma ActivityHitMatches(q: Option<string>, pattern: Option<string -> bool>, cities: seq<City>,
                           activities: seq<Activity>)
    requires Search(q, pattern, cities, activities).ActivityHit?
    ensures var r := Search(q, pattern, cities, activities);
      && |r.matched| > 0
      && (forall i :: 0 <= i < |r.matched| ==>
            r.matched[i].activity in activities && pattern.value(r.matched[i].activity.name)
            && r.matched[i].city.Some? && r.matched[i].city.value.id == r.matched[i].activity.cityId)
      && (forall j :: 0 <= j < |activities| && pattern.value(activities[j].name) ==>
            exists k | 0 <= k < |r.matched| :: r.matched[k].activity == activities[j])
  {
    var r := Search(q, pattern, cities, activities);
    var named := MatchingActivities(activities, pattern.value);
    assert r == ActivityBranch(cities, activities, named);
    assert r.matched == PopulateAll(cities, named);
    forall i | 0 <= i < |r.matched|
      ensures r.matched[i].activity in activities && pattern.value(r.matched[i].activity.name)
      ensures r.matched[i].city.Some? && r.matched[i].city.value.id == r.matched[i].activity.cityId
    {
      assert r.matched[i] == Populate(cities, named[i]);
    }
    forall j | 0 <= j < |activities| && pattern.value(activities[j].name)
      ensures exists k | 0 <= k < |r.matched| :: r.matched[k].activity == activities[j]
    {
      var k :| 0 <= k < |named| && named[k] == activities[j];
      assert r.matched[k].activity == activities[j];
    }
  }

  /** In an activity result the cities are one per distinct city id, in
      order of first occurrence among the matched activities. */
  lemma CitiesDistinctByFirstOccurrence(cities: seq<City>, activities: seq<Activity>, named: seq<Activity>)
    requires ActivityBranch(cities, activities, named).ActivityHit?
    ensures var r := ActivityBranch(cities, activities, named);
      && Keys(r.cities, (c: City) => c.id) == Distinct(Keys(named, (a: Activity) => a.cityId))
      && forall i, j :: 0 <= i < j < |r.cities| ==> r.cities[i].id != r.cities[j].id
  {
    var found := PopulateAll(cities, named);
    var located := Located(found);
    var key := (c: City) => c.id;
    MapValuesSpec(located, key);
    assert Keys(located, key) == Keys(named, (a: Activity) => a.cityId);
    DistinctSpec(Keys(named, (a: Activity) => a.cityId));
  }

  /** `similar` has at most five activities, all of the first match's
      category and none of them a match; it is empty when that category is
      missing or empty. */
  lemma SimilarActivities(cities: seq<City>, activities: seq<Activity>, named: seq<Activity>)
    requires ActivityBranch(cities, activities, named).ActivityHit?
    ensures var r := ActivityBranch(cities, activities, named);
      && |r.similar| <= 5
      && (!HasCategory(named[0].category) ==> r.similar == [])
      && forall i :: 0 <= i < |r.similar| ==>
           && r.similar[i].activity in activities
           && r.similar[i].activity.category == named[0].category
           && forall k :: 0 <= k < |named| ==> r.similar[i].activity.id != named[k].id
    ensures var r := ActivityBranch(cities, activities, named);
      var first5 := Take(SimilarPool(activities, named[0].category, Keys(named, (a: Activity) => a.id)), 5);
      HasCategory(named[0].category) ==> r.similar == PopulateAll(cities, first5)
  {
    var found := PopulateAll(cities, named);
    assert ActivityBranch(cities, activities, named).similar == Similar(cities, activities, found);
    assert found[0].activity == named[0];
    SimilarSpec(cities, activities, named, found);
    assert ActivityIds(found) == Keys(named, (a: Activity) => a.id);
  }

  lemma SimilarSpec(cities: seq<City>, activities: seq<Activity>, named: seq<Activity>, found: seq<Populated>)
    requires named != [] && found == PopulateAll(cities, named)
    ensures var r := Similar(cities, activities, found);
      && |r| <= 5
      && (!HasCategory(named[0].category) ==> r == [])
      && forall i :: 0 <= i < |r| ==>
           && r[i].activity in activities
           && r[i].activity.category == named[0].category
           && forall k :: 0 <= k < |named| ==> r[i].activity.id != named[k].id
  {
    var category := named[0].category;
    assert found[0].activity.category == category;
    var ids := ActivityIds(found);
    if HasCategory(category) {
      var pool := SimilarPool(activities, category, ids);
      var top := Take(pool, 5);
      var r := Similar(cities, activities, found);
      assert r == PopulateAll(cities, top);
      forall i | 0 <= i < |top|
        ensures top[i] in activities && top[i].category == category && top[i].id !in ids
      {
        assert top[i] == pool[i];
      }
      forall i, k | 0 <= i < |top| && 0 <= k < |named| ensures top[i].id != named[k].id {
        assert ids[k] == named[k].id;
      }
      forall i | 0 <= i < |r| ensures r[i].activity == top[i] {
      }
    }
  }

  // ---------------------------------------------------------------------
  // GET /suggestions

  datatype Suggestions = Suggestions(status: int, names: seq<string>)

  /** Up to five matching city names, then up to five matching activity
      names, duplicates kept; a blank query gives [] and a bad pattern a
      500 with []. */
  function Suggest(q: Option<string>, pattern: Option<string -> bool>, cities: seq<City>,
                   activities: seq<Activity>): (r: Suggestions)
    ensures Blank(q) ==> r == Suggestions(200, [])
    ensures !Blank(q) && pattern.None? ==> r == Suggestions(500, [])
    ensures |r.names| <= 10
    ensures !Blank(q) && pattern.Some? ==>
      && r.status == 200
      && r.names == Keys(Take(MatchingCities(cities, pattern.value), 5), (c: City) => c.name)
                    + Keys(Take(MatchingActivities(activities, pattern.value), 5), (a: Activity) => a.name)
  {
    if Blank(q) then Suggestions(200, [])
    else if pattern.None? then Suggestions(500, [])
    else
      Suggestions(200, Keys(Take(MatchingCities(cities, pattern.value), 5), (c: City) => c.name)
                       + Keys(Take(MatchingActivities(activities, pattern.value), 5), (a: Activity) => a.name))
  }

  /** Every suggestion is the name of a matching city or activity, city
      names first. */
  lemma SuggestionsMatch(q: Option<string>, pattern: Option<string -> bool>, cities: seq<City>,
                         activities: seq<Activity>)
    requires !Blank(q) && pattern.Some?
    ensures var r := Suggest(q, pattern, cities, activities);
      var n := |Take(MatchingCities(cities, pattern.value), 5)|;
      && (forall i :: 0 <= i < n ==> exists j | 0 <= j < |cities| :: pattern.value(cities[j].name) && r.names[i] == cities[j].name)
      && (forall i :: n <= i < |r.names| ==>
            exists j | 0 <= j < |activities| :: pattern.value(activities[j].name) && r.names[i] == activities[j].name)
  {
    var r := Suggest(q, pattern, cities, activities);
    var mc := MatchingCities(cities, pattern.value);
    var ma := MatchingActivities(activities, pattern.value);
    var cs := Take(mc, 5);
    var acts := Take(ma, 5);
    var cn, an := Keys(cs, (c: City) => c.name), Keys(acts, (a: Activity) => a.name);
    assert r.names == cn + an;
    forall i | 0 <= i < |cs|
      ensures exists j | 0 <= j < |cities| :: pattern.value(cities[j].name) && r.names[i] == cities[j].name
    {
      assert r.names[i] == cn[i] == cs[i].name;
      assert cs[i] == mc[i] && mc[i] in cities && pattern.value(mc[i].name);
      var j :| 0 <= j < |cities| && cities[j] == cs[i];
    }
    forall i | |cs| <= i < |r.names|
      ensures exists j | 0 <= j < |activities| :: pattern.value(activities[j].name) && r.names[i] == activities[j].name
    {
      var k := i - |cs|;
      assert r.names[i] == an[k] == acts[k].name;
      assert acts[k] == ma[k] && ma[k] in activities && pattern.value(ma[k].name);
      var j :| 0 <= j < |activities| && activities[j] == acts[k];
    }
  }

  /** A name that is both a matching city's and a matching activity's, each
      first among its matches, is suggested twice. */
  lemma DuplicatesKept(q: Option<string>, pattern: Option<string -> bool>, cities: seq<City>,
                       activities: seq<Activity>)
    requires !Blank(q) && pattern.Some?
    requires MatchingCities(cities, pattern.value) != [] && MatchingActivities(activities, pattern.value) != []
    requires MatchingCities(cities, pattern.value)[0].name == MatchingActivities(activities, pattern.value)[0].name
    ensures var r := Suggest(q, pattern, cities, activities);
      var n := |Take(MatchingCities(cities, pattern.value), 5)|;
      0 < n < |r.names| && r.names[0] == r.names[n]
  {
  }
}

/** The pydantic schemas of python/models/itinerary.py: Activity, Section,
    ItineraryRequest and ItineraryResponse, each with the validation pydantic
    performs when a JSON object is turned into the model. */
module ItineraryModels {
  import opened Common
  import opened Json

  datatype Activity = Activity(
    name: string,
    description: Option<string>,
    cityId: string,
    category: Option<string>,  // free text; the five names live only in a field description
    cost: Option<int>,
    duration: Option<int>,     // hours
    images: Option<seq<string>>)

  /** A section holds full Activity records and has no date fields. */
  datatype Section = Section(
    tripId: string,
    name: string,
    description: string,
    activities: seq<Activity>,
    budget: Option<int>)

  datatype ItineraryRequest = ItineraryRequest(
    name: string,
    description: string,
    start_date: string,
    end_date: string,
    activities: seq<Activity>)

  datatype ItineraryResponse = ItineraryResponse(sections: seq<Section>)

  const ActivityKeys: set<string> := {"name", "description", "cityId", "category", "cost", "duration", "images"}
  const SectionKeys: set<string> := {"tripId", "name", "description", "activities", "budget"}

  /** An absent key, null, or a value of the declared type. */
  predicate OptionalStrOk(o: Object, k: string)
  {
    k !in o || o[k].JNull? || o[k].JStr?
  }

  predicate OptionalNumOk(o: Object, k: string)
  {
    k !in o || o[k].JNull? || LaxNumber(o[k]).Some?
  }

  predicate RequiredStrOk(o: Object, k: string)
  {
    k in o && o[k].JStr?
  }

  function ParseActivity(o: Object): (r: Result<Activity, seq<FieldError>>)
    ensures r.Ok? <==>
      RequiredStrOk(o, "name") && RequiredStrOk(o, "cityId")
      && OptionalStrOk(o, "description") && OptionalStrOk(o, "category")
      && OptionalNumOk(o, "cost") && OptionalNumOk(o, "duration")
      && ("images" !in o || o["images"].JNull? || (o["images"].JArr? && AllStrings(o["images"].items)))
    ensures r.Ok? ==>
      r.value == Activity(o["name"].s, StrOrNone(o, "description"), o["cityId"].s, StrOrNone(o, "category"),
                          NumOrNone(o, "cost"), NumOrNone(o, "duration"), StrListOrDefault(o, "images"))
    ensures r.Err? ==> r.error != []
  {
    var name := RequiredStr(o, "name");
    var description := OptionalStr(o, "description");
    var cityId := RequiredStr(o, "cityId");
    var category := OptionalStr(o, "category");
    var cost := OptionalNum(o, "cost");
    var duration := OptionalNum(o, "duration");
    var images := OptionalStrListDefaultEmpty(o, "images");
    if name.Ok? && description.Ok? && cityId.Ok? && category.Ok? && cost.Ok? && duration.Ok? && images.Ok? then
      Ok(Activity(name.value, description.value, cityId.value, category.value, cost.value, duration.value, images.value))
    else
      Err(Errors(name) + Errors(description) + Errors(cityId) + Errors(category)
          + Errors(cost) + Errors(duration) + Errors(images))
  }

  /** One list item: an object that parses as an Activity, its errors
      reported under the list's field name otherwise. */
  function ParseItem(field: string, item: Json): (r: Result<Activity, seq<FieldError>>)
    ensures r.Ok? <==> item.JObj? && ParseActivity(item.fields).Ok?
    ensures r.Ok? ==> r.value == ParseActivity(item.fields).value
    ensures r.Err? ==> r.error != []
  {
    if item.JObj? then
      match ParseActivity(item.fields)
      case Ok(a) => Ok(a)
      case Err(es) => Err(seq(|es|, i requires 0 <= i < |es| => FieldError(field, es[i].kind)))
    else Err([FieldError(field, WrongType)])
  }

  function ParseActivities(field: string, items: seq<Json>): (r: Result<seq<Activity>, seq<FieldError>>)
    ensures r.Ok? <==> forall i :: 0 <= i < |items| ==> items[i].JObj? && ParseActivity(items[i].fields).Ok?
    ensures r.Ok? ==> |r.value| == |items|
    ensures r.Ok? ==> forall i :: 0 <= i < |items| ==> r.value[i] == ParseActivity(items[i].fields).value
    ensures r.Err? ==> r.error != []
  {
    if items == [] then Ok([])
    else
      var head := ParseItem(field, items[0]);
      var tail := ParseActivities(field, items[1..]);
      if head.Ok? && tail.Ok? then Ok([head.value] + tail.value)
      else
        Err((if head.Err? then head.error else []) + (if tail.Err? then tail.error else []))
  }

  function ParseActivityList(o: Object, field: string): (r: Result<seq<Activity>, seq<FieldError>>)
    ensures r.Ok? <==> field in o && o[field].JArr? && ParseActivities(field, o[field].items).Ok?
    ensures r.Ok? ==> |r.value| == |o[field].items|
    ensures r.Ok? ==> forall i :: 0 <= i < |r.value| ==> r.value[i] == ParseActivity(o[field].items[i].fields).value
  {
    match RequiredArray(o, field)
    case Err(e) => Err([e])
    case Ok(items) => ParseActivities(field, items)
  }

  function ParseSection(o: Object): (r: Result<Section, seq<FieldError>>)
    ensures r.Ok? <==>
      RequiredStrOk(o, "tripId") && RequiredStrOk(o, "name") && RequiredStrOk(o, "description")
      && ParseActivityList(o, "activities").Ok? && OptionalNumOk(o, "budget")
    ensures r.Ok? ==>
      r.value == Section(o["tripId"].s, o["name"].s, o["description"].s, ParseActivityList(o, "activities").value,
                         NumOrNone(o, "budget"))
  {
    var tripId := RequiredStr(o, "tripId");
    var name := RequiredStr(o, "name");
    var description := RequiredStr(o, "description");
    var activities := ParseActivityList(o, "activities");
    var budget := OptionalNum(o, "budget");
    if tripId.Ok? && name.Ok? && description.Ok? && activities.Ok? && budget.Ok? then
      Ok(Section(tripId.value, name.value, description.value, activities.value, budget.value))
    else
      Err(Errors(tripId) + Errors(name) + Errors(description)
          + (if activities.Err? then activities.error else []) + Errors(budget))
  }

  function ParseItineraryRequest(o: Object): (r: Result<ItineraryRequest, seq<FieldError>>)
    ensures r.Ok? <==>
      RequiredStrOk(o, "name") && RequiredStrOk(o, "description")
      && RequiredStrOk(o, "start_date") && RequiredStrOk(o, "end_date")
      && ParseActivityList(o, "activities").Ok?
    ensures r.Ok? ==>
      r.value == ItineraryRequest(o["name"].s, o["description"].s, o["start_date"].s, o["end_date"].s,
                                  ParseActivityList(o, "activities").value)
  {
    var name := RequiredStr(o, "name");
    var description := RequiredStr(o, "description");
    var start := RequiredStr(o, "start_date");
    var end := RequiredStr(o, "end_date");
    var activities := ParseActivityList(o, "activities");
    if name.Ok? && description.Ok? && start.Ok? && end.Ok? && activities.Ok? then
      Ok(ItineraryRequest(name.value, description.value, start.value, end.value, activities.value))
    else
      Err(Errors(name) + Errors(description) + Errors(start) + Errors(end)
          + (if activities.Err? then activities.error else []))
  }

  function ParseSections(items: seq<Json>): (r: Result<seq<Section>, seq<FieldError>>)
    ensures r.Ok? <==> forall i :: 0 <= i < |items| ==> items[i].JObj? && ParseSection(items[i].fields).Ok?
    ensures r.Ok? ==> |r.value| == |items|
    ensures r.Ok? ==> forall i :: 0 <= i < |items| ==> r.value[i] == ParseSection(items[i].fields).value
  {
    if items == [] then Ok([])
    else
      var head :=
        if items[0].JObj? then
          match ParseSection(items[0].fields)
          case Ok(s) => Ok(s)
          case Err(_) => Err([FieldError("sections", WrongType)])
        else Err([FieldError("sections", WrongType)]);
      var tail := ParseSections(items[1..]);
      if head.Ok? && tail.Ok? then Ok([head.value] + tail.value)
      else Err((if head.Err? then head.error else []) + (if tail.Err? then tail.error else []))
  }

  function ParseItineraryResponse(o: Object): (r: Result<ItineraryResponse, seq<FieldError>>)
    ensures r.Ok? <==> "sections" in o && o["sections"].JArr? && ParseSections(o["sections"].items).Ok?
    ensures r.Ok? ==> |r.value.sections| == |o["sections"].items|
    ensures r.Ok? ==> forall i :: 0 <= i < |r.value.sections| ==>
      r.value.sections[i] == ParseSection(o["sections"].items[i].fields).value
  {
    match RequiredArray(o, "sections")
    case Err(e) => Err([e])
    case Ok(items) =>
      match ParseSections(items)
      case Ok(ss) => Ok(ItineraryResponse(ss))
      case Err(es) => Err(es)
  }

  // ---------------------------------------------------------------------
  // Properties of the schemas.

  /** The smallest valid Activity: a name and a cityId; every other field
      takes its declared default. */
  lemma ActivityDefaults(name: string, cityId: string)
    ensures ParseActivity(map["name" := JStr(name), "cityId" := JStr(cityId)])
         == Ok(Activity(name, None, cityId, None, None, None, Some([])))
  {
  }

  /** Without a name or without a cityId there is no Activity. */
  lemma ActivityRequiresNameAndCity(o: Object)
    requires "name" !in o || "cityId" !in o
    ensures ParseActivity(o).Err?
    ensures "name" !in o ==> FieldError("name", MissingField) in ParseActivity(o).error
    ensures "cityId" !in o ==> FieldError("cityId", MissingField) in ParseActivity(o).error
  {
  }

  /** Category is free text: any string is accepted and kept as given. */
  lemma AnyCategoryAccepted(o: Object, c: string)
    requires ParseActivity(o).Ok?
    ensures ParseActivity(o["category" := JStr(c)]) == Ok(ParseActivity(o).value.(category := Some(c)))
  {
  }

  /** Keys the schema does not declare are dropped, not rejected. */
  lemma ActivityIgnoresUnknownKeys(o: Object, k: string, v: Json)
    requires k !in ActivityKeys
    ensures ParseActivity(o[k := v]) == ParseActivity(o)
  {
    var o' := o[k := v];
    assert RequiredStr(o', "name") == RequiredStr(o, "name");
    assert OptionalStr(o', "description") == OptionalStr(o, "description");
    assert RequiredStr(o', "cityId") == RequiredStr(o, "cityId");
    assert OptionalStr(o', "category") == OptionalStr(o, "category");
    assert OptionalNum(o', "cost") == OptionalNum(o, "cost");
    assert OptionalNum(o', "duration") == OptionalNum(o, "duration");
    assert OptionalStrListDefaultEmpty(o', "images") == OptionalStrListDefaultEmpty(o, "images");
  }

  /** A Section ignores start and end dates: it has no such fields. */
  lemma SectionHasNoDates(o: Object, start: Json, end: Json)
    ensures ParseSection(o["start_date" := start]["end_date" := end]) == ParseSection(o)
  {
    var o' := o["start_date" := start]["end_date" := end];
    assert RequiredArray(o', "activities") == RequiredArray(o, "activities");
  }

  /** A Section's activities must be full records: a list of activity ids
      (strings) is rejected. */
  lemma SectionRejectsActivityIds(o: Object, ids: seq<string>)
    requires ids != []
    ensures ParseSection(o["activities" := JArr(seq(|ids|, i requires 0 <= i < |ids| => JStr(ids[i])))]).Err?
  {
    var items := seq(|ids|, i requires 0 <= i < |ids| => JStr(ids[i]));
    assert !items[0].JObj?;
  }

  /** The response model reads exactly one field, `sections`. */
  lemma ResponseReadsOnlySections(o: Object, k: string, v: Json)
    requires k != "sections"
    ensures ParseItineraryResponse(o[k := v]) == ParseItineraryResponse(o)
  {
    assert RequiredArray(o[k := v], "sections") == RequiredArray(o, "sections");
  }
}

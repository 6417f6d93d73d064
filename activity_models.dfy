/** The pydantic schemas of python/models/activity.py: ActivityCreate and
    ActivitiesResponseModel. */
module ActivityModels {
  import opened Common
  import opened Json

  /** No id, no cityId and no images: only these five fields. */
  datatype ActivityCreate = ActivityCreate(
    name: string,
    description: Option<string>,
    category: Option<string>,
    cost: Option<int>,
    duration: Option<int>)

  datatype ActivitiesResponseModel = ActivitiesResponseModel(activities: seq<ActivityCreate>)

  const ActivityCreateKeys: set<string> := {"name", "description", "category", "cost", "duration"}

  function ParseActivityCreate(o: Object): (r: Result<ActivityCreate, seq<FieldError>>)
    ensures r.Ok? <==>
      "name" in o && o["name"].JStr?
      && ("description" !in o || o["description"].JNull? || o["description"].JStr?)
      && ("category" !in o || o["category"].JNull? || o["category"].JStr?)
      && ("cost" !in o || o["cost"].JNull? || LaxNumber(o["cost"]).Some?)
      && ("duration" !in o || o["duration"].JNull? || LaxNumber(o["duration"]).Some?)
    ensures r.Ok? ==>
      r.value == ActivityCreate(o["name"].s, StrOrNone(o, "description"), StrOrNone(o, "category"),
                                NumOrNone(o, "cost"), NumOrNone(o, "duration"))
    ensures r.Err? ==> r.error != []
  {
    var name := RequiredStr(o, "name");
    var description := OptionalStr(o, "description");
    var category := OptionalStr(o, "category");
    var cost := OptionalNum(o, "cost");
    var duration := OptionalNum(o, "duration");
    if name.Ok? && description.Ok? && category.Ok? && cost.Ok? && duration.Ok? then
      Ok(ActivityCreate(name.value, description.value, category.value, cost.value, duration.value))
    else
      Err(Errors(name) + Errors(description) + Errors(category) + Errors(cost) + Errors(duration))
  }

  function ParseActivityCreates(items: seq<Json>): (r: Result<seq<ActivityCreate>, seq<FieldError>>)
    ensures r.Ok? <==> forall i :: 0 <= i < |items| ==> items[i].JObj? && ParseActivityCreate(items[i].fields).Ok?
    ensures r.Ok? ==> |r.value| == |items|
    ensures r.Ok? ==> forall i :: 0 <= i < |items| ==> r.value[i] == ParseActivityCreate(items[i].fields).value
  {
    if items == [] then Ok([])
    else
      var head :=
        if items[0].JObj? then
          match ParseActivityCreate(items[0].fields)
          case Ok(a) => Ok(a)
          case Err(_) => Err([FieldError("activities", WrongType)])
        else Err([FieldError("activities", WrongType)]);
      var tail := ParseActivityCreates(items[1..]);
      if head.Ok? && tail.Ok? then Ok([head.value] + tail.value)
      else Err((if head.Err? then head.error else []) + (if tail.Err? then tail.error else []))
  }

  function ParseActivitiesResponse(o: Object): (r: Result<ActivitiesResponseModel, seq<FieldError>>)
    ensures r.Ok? <==> "activities" in o && o["activities"].JArr? && ParseActivityCreates(o["activities"].items).Ok?
    ensures r.Ok? ==> |r.value.activities| == |o["activities"].items|
    ensures r.Ok? ==> forall i :: 0 <= i < |r.value.activities| ==>
      r.value.activities[i] == ParseActivityCreate(o["activities"].items[i].fields).value
  {
    match RequiredArray(o, "activities")
    case Err(e) => Err([e])
    case Ok(items) =>
      match ParseActivityCreates(items)
      case Ok(xs) => Ok(ActivitiesResponseModel(xs))
      case Err(es) => Err(es)
  }

  // ---------------------------------------------------------------------
  // Properties of the schemas.

  /** A name alone is a valid ActivityCreate; every other field is None. */
  lemma NameAloneSuffices(name: string)
    ensures ParseActivityCreate(map["name" := JStr(name)]) == Ok(ActivityCreate(name, None, None, None, None))
  {
  }

  /** Without a name there is no ActivityCreate, whatever else is given. */
  lemma NameRequired(o: Object)
    requires "name" !in o
    ensures ParseActivityCreate(o).Err?
    ensures ParseActivityCreate(o).error[0] == FieldError("name", MissingField)
  {
    assert Errors(RequiredStr(o, "name")) == [FieldError("name", MissingField)];
  }

  /** id, cityId and images are not fields of ActivityCreate: whatever they
      hold, they are dropped. */
  lemma NoIdCityOrImages(o: Object, id: Json, cityId: Json, images: Json)
    ensures ParseActivityCreate(o["id" := id]["cityId" := cityId]["images" := images]) == ParseActivityCreate(o)
  {
    assert "id" !in ActivityCreateKeys && "cityId" !in ActivityCreateKeys && "images" !in ActivityCreateKeys;
    IgnoresUnknownKey(o, "id", id);
    IgnoresUnknownKey(o["id" := id], "cityId", cityId);
    IgnoresUnknownKey(o["id" := id]["cityId" := cityId], "images", images);
  }

  /** A key the schema does not declare is dropped, not rejected. */
  lemma IgnoresUnknownKey(o: Object, k: string, v: Json)
    requires k !in ActivityCreateKeys
    ensures ParseActivityCreate(o[k := v]) == ParseActivityCreate(o)
  {
    var o' := o[k := v];
    assert RequiredStr(o', "name") == RequiredStr(o, "name");
    assert OptionalStr(o', "description") == OptionalStr(o, "description");
    assert OptionalStr(o', "category") == OptionalStr(o, "category");
    assert OptionalNum(o', "cost") == OptionalNum(o, "cost");
    assert OptionalNum(o', "duration") == OptionalNum(o, "duration");
  }

  /** Lax mode: the decimal text of any integer and a boolean are valid
      costs, coerced to their number; a non-numeric string is rejected. */
  lemma LaxCost(o: Object, n: int, b: bool)
    requires ParseActivityCreate(o).Ok?
    ensures ParseActivityCreate(o["cost" := JStr(IntToString(n))]) == Ok(ParseActivityCreate(o).value.(cost := Some(n)))
    ensures ParseActivityCreate(o["cost" := JBool(b)]) == Ok(ParseActivityCreate(o).value.(cost := Some(if b then 1 else 0)))
    ensures ParseActivityCreate(o["cost" := JStr("12a")]).Err?
  {
    IntTextRoundTrip(n);
    var bad := "12a";
    assert bad[2] == 'a' && !IsDigit(bad[2]);
    assert bad[1..][1] == 'a';
  }

  /** Any string is a valid category. */
  lemma AnyCategory(o: Object, c: string)
    requires ParseActivityCreate(o).Ok?
    ensures ParseActivityCreate(o["category" := JStr(c)]) == Ok(ParseActivityCreate(o).value.(category := Some(c)))
  {
  }

  /** The activities list has no length bound: n valid items, for every n,
      give a model with n activities. */
  lemma {:induction false} NoLengthBound(item: Object, n: nat)
    requires ParseActivityCreate(item).Ok?
    ensures ParseActivitiesResponse(map["activities" := JArr(seq(n, _ => JObj(item)))]).Ok?
    ensures |ParseActivitiesResponse(map["activities" := JArr(seq(n, _ => JObj(item)))]).value.activities| == n
  {
    var items := seq(n, _ => JObj(item));
    assert forall i :: 0 <= i < |items| ==> items[i] == JObj(item);
  }
}

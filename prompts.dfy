/** `itinerary_prompt` of python/utils/prompts.py: one f-string around the
    trip fields and a block of activity lines. The activities reach it as
    Python dicts (the caller passes `Activity.dict()`), so a dict is a map
    from key to a Python value and a missing key raises KeyError. */
module Prompts {
  import opened Common
  import ItineraryModels

  /** The Python values an `Activity.dict()` holds. */
  datatype PyValue = PyStr(s: string) | PyNone | PyNum(n: int) | PyStrList(items: seq<string>)

  type PyDict = map<string, PyValue>

  /** What an f-string substitution `{v}` writes, i.e. Python's str(v).
      Lists are rendered without quote escaping. */
  function Str(v: PyValue): string
  {
    match v
    case PyStr(s) => s
    case PyNone => "None"
    case PyNum(n) => IntToString(n)
    case PyStrList(items) =>
      "[" + Join(", ", seq(|items|, i requires 0 <= i < |items| => "'" + items[i] + "'")) + "]"
  }

  datatype KeyError = KeyError(key: string)

  const Opening: string :=
    "\n    You are a travel planner AI. Based on the given trip details, create a structured itinerary.\n\n    Trip Name: "
  const DescriptionLabel: string := "\n    Description: "
  const StartLabel: string := "\n    Start Date: "
  const EndLabel: string := "\n    End Date: "
  const ActivitiesLabel: string := "\n\n    Available activities you can choose from:\n    "
  const Rules: string :=
    "\n\n    Rules:\n    - Use only activities from the given list.\n    - Distribute activities logically across days/sections.\n    - Each section should have a budget (approximation).\n    - Output in valid JSON matching the given schema exactly.\n    "

  /** The keys the activity line reads, in the order the f-string reads them. */
  const LineKeys: seq<string> := ["name", "category", "cityId"]

  /** The first of `keys` that `a` lacks, if any. */
  function FirstMissing(keys: seq<string>, a: PyDict): (r: Option<string>)
    ensures r.None? <==> forall i :: 0 <= i < |keys| ==> keys[i] in a
    ensures r.Some? ==> exists i :: 0 <= i < |keys| && keys[i] == r.value && keys[i] !in a
                          && forall j :: 0 <= j < i ==> keys[j] in a
  {
    if keys == [] then None
    else if keys[0] !in a then Some(keys[0])
    else
      var rest := FirstMissing(keys[1..], a);
      if rest.Some? then
        var i :| 0 <= i < |keys[1..]| && keys[1..][i] == rest.value && keys[1..][i] !in a
                 && forall j :: 0 <= j < i ==> keys[1..][j] in a;
        assert keys[i + 1] == rest.value && forall j :: 0 <= j < i + 1 ==> keys[j] in a;
        rest
      else rest
  }

  /** The line of one activity, `- {name} ({category}) in city {cityId}`;
      the keys are looked up left to right, so the error names the first
      missing one. */
  function ActivityLine(a: PyDict): (r: Result<string, KeyError>)
    ensures r.Ok? <==> "name" in a && "category" in a && "cityId" in a
    ensures r.Err? ==> FirstMissing(LineKeys, a) == Some(r.error.key)
    ensures r.Ok? ==>
      r.value == "- " + Str(a["name"]) + " (" + Str(a["category"]) + ") in city " + Str(a["cityId"])
  {
    if "name" !in a then Err(KeyError("name"))
    else if "category" !in a then Err(KeyError("category"))
    else if "cityId" !in a then
      assert LineKeys[1..][1..] == ["cityId"] && FirstMissing(["cityId"], a) == Some("cityId");
      Err(KeyError("cityId"))
    else Ok("- " + Str(a["name"]) + " (" + Str(a["category"]) + ") in city " + Str(a["cityId"]))
  }

  predicate HasLineKeys(a: PyDict)
  {
    "name" in a && "category" in a && "cityId" in a
  }

  /** The list comprehension: one line per activity, in input order; the
      first dict with a missing key raises. */
  function ActivityLines(activities: seq<PyDict>): (r: Result<seq<string>, KeyError>)
    ensures r.Ok? <==> forall i :: 0 <= i < |activities| ==> HasLineKeys(activities[i])
    ensures r.Ok? ==> |r.value| == |activities|
    ensures r.Ok? ==> forall i :: 0 <= i < |activities| ==> Ok(r.value[i]) == ActivityLine(activities[i])
    ensures r.Err? ==>
      exists i | 0 <= i < |activities| ::
        ActivityLine(activities[i]) == Err(r.error) && forall j :: 0 <= j < i ==> HasLineKeys(activities[j])
  {
    if activities == [] then Ok([])
    else
      match ActivityLine(activities[0])
      case Err(e) => Err(e)
      case Ok(line) =>
        match ActivityLines(activities[1..])
        case Err(e) =>
          FirstFailureShifts(activities, e);
          Err(e)
        case Ok(rest) => Ok([line] + rest)
  }

  /** The first failing dict of the tail, behind a dict with every key, is
      the first failing dict of the whole list. */
  lemma FirstFailureShifts(activities: seq<PyDict>, e: KeyError)
    requires activities != [] && HasLineKeys(activities[0])
    requires exists i | 0 <= i < |activities[1..]| ::
      ActivityLine(activities[1..][i]) == Err(e) && forall j :: 0 <= j < i ==> HasLineKeys(activities[1..][j])
    ensures exists i | 0 <= i < |activities| ::
      ActivityLine(activities[i]) == Err(e) && forall j :: 0 <= j < i ==> HasLineKeys(activities[j])
  {
    var i :| 0 <= i < |activities[1..]| && ActivityLine(activities[1..][i]) == Err(e)
             && forall j :: 0 <= j < i ==> HasLineKeys(activities[1..][j]);
    assert ActivityLine(activities[i + 1]) == Err(e);
    forall j | 0 <= j < i + 1 ensures HasLineKeys(activities[j]) {
      if j > 0 { assert activities[j] == activities[1..][j - 1]; }
    }
  }

  const Labels: seq<string> := [Opening, DescriptionLabel, StartLabel, EndLabel, ActivitiesLabel, Rules]

  /** The text of the prompt around a given activity block. */
  function Layout(name: string, description: string, startDate: string, endDate: string, block: string): string
  {
    Interleave(Labels, [name, description, startDate, endDate, block])
  }

  function ItineraryPrompt(name: string, description: string, startDate: string, endDate: string,
                           activities: seq<PyDict>): (r: Result<string, KeyError>)
    ensures r.Ok? <==> forall i :: 0 <= i < |activities| ==> HasLineKeys(activities[i])
    ensures r.Ok? ==> r.value == Layout(name, description, startDate, endDate, Join("\n", ActivityLines(activities).value))
  {
    match ActivityLines(activities)
    case Err(e) => Err(e)
    case Ok(lines) => Ok(Layout(name, description, startDate, endDate, Join("\n", lines)))
  }

  // ---------------------------------------------------------------------
  // The caller's dicts.

  function ToDict(a: ItineraryModels.Activity): (d: PyDict)
    ensures HasLineKeys(d)
  {
    map[
      "name" := PyStr(a.name),
      "description" := if a.description.Some? then PyStr(a.description.value) else PyNone,
      "cityId" := PyStr(a.cityId),
      "category" := if a.category.Some? then PyStr(a.category.value) else PyNone,
      "cost" := if a.cost.Some? then PyNum(a.cost.value) else PyNone,
      "duration" := if a.duration.Some? then PyNum(a.duration.value) else PyNone,
      "images" := if a.images.Some? then PyStrList(a.images.value) else PyNone]
  }

  function ToDicts(acts: seq<ItineraryModels.Activity>): (ds: seq<PyDict>)
    ensures |ds| == |acts|
    ensures forall i :: 0 <= i < |acts| ==> ds[i] == ToDict(acts[i])
  {
    seq(|acts|, i requires 0 <= i < |acts| => ToDict(acts[i]))
  }

  function ExpectedLine(a: ItineraryModels.Activity): string
  {
    "- " + a.name + " (" + (if a.category.Some? then a.category.value else "None") + ") in city " + a.cityId
  }

  lemma ToDictLine(a: ItineraryModels.Activity)
    ensures ActivityLine(ToDict(a)) == Ok(ExpectedLine(a))
  {
    var d := ToDict(a);
    assert d["name"] == PyStr(a.name);
    assert d["cityId"] == PyStr(a.cityId);
    assert d["category"] == if a.category.Some? then PyStr(a.category.value) else PyNone;
  }

  /** The only caller passes `Activity.dict()` for every activity, so the
      prompt never raises, and a missing category is written as "None". */
  lemma CallerNeverRaises(name: string, description: string, startDate: string, endDate: string,
                          acts: seq<ItineraryModels.Activity>)
    ensures ItineraryPrompt(name, description, startDate, endDate, ToDicts(acts)).Ok?
    ensures forall i :: 0 <= i < |acts| ==>
      ActivityLines(ToDicts(acts)).value[i]
        == "- " + acts[i].name + " (" + (if acts[i].category.Some? then acts[i].category.value else "None")
           + ") in city " + acts[i].cityId
  {
    var ds := ToDicts(acts);
    forall i | 0 <= i < |acts| ensures ActivityLine(ds[i]) == Ok(ExpectedLine(acts[i])) {
      ToDictLine(acts[i]);
    }
    forall i | 0 <= i < |acts|
      ensures ActivityLines(ds).value[i]
        == "- " + acts[i].name + " (" + (if acts[i].category.Some? then acts[i].category.value else "None")
           + ") in city " + acts[i].cityId
    {
      assert Ok(ActivityLines(ds).value[i]) == ActivityLine(ds[i]);
    }
  }

  // ---------------------------------------------------------------------
  // Properties of the rendered prompt.

  /** The block has exactly one line per activity, in order: splitting it on
      "\n" gives back the lines, provided no field contains a newline. */
  lemma OneLinePerActivity(activities: seq<PyDict>)
    requires activities != []
    requires ActivityLines(activities).Ok?
    requires forall i :: 0 <= i < |activities| ==> '\n' !in ActivityLines(activities).value[i]
    ensures Split(Join("\n", ActivityLines(activities).value), '\n') == ActivityLines(activities).value
  {
    SplitJoin(ActivityLines(activities).value, '\n');
  }

  /** An empty activity list gives an empty block: the activities label is
      directly followed by the rules. */
  lemma EmptyActivitiesEmptyBlock(name: string, description: string, startDate: string, endDate: string)
    ensures ItineraryPrompt(name, description, startDate, endDate, []) == Ok(Layout(name, description, startDate, endDate, ""))
  {
  }

  /** Each trip field, and the activity block, appears verbatim right after
      its label ("...Trip Name: ", "Description: ", "Start Date: ",
      "End Date: ", "...choose from:"). */
  lemma FieldsAfterLabels(name: string, description: string, startDate: string, endDate: string, block: string,
                          i: nat)
    requires i < 5
    ensures var p, fields := Layout(name, description, startDate, endDate, block),
                             [name, description, startDate, endDate, block];
      var k := FieldOffset(Labels, fields, i);
      |Labels[i]| <= k && k + |fields[i]| <= |p|
      && p[k - |Labels[i]|..k] == Labels[i] && p[k..k + |fields[i]|] == fields[i]
  {
    FieldAfterLabel(Labels, [name, description, startDate, endDate, block], i);
  }

  /** The rules block is the constant tail of every prompt. */
  lemma RulesAreConstant(name: string, description: string, startDate: string, endDate: string,
                         activities: seq<PyDict>)
    requires ItineraryPrompt(name, description, startDate, endDate, activities).Ok?
    ensures var p := ItineraryPrompt(name, description, startDate, endDate, activities).value;
      |p| >= |Rules| && p[|p| - |Rules|..] == Rules
  {
    var block := Join("\n", ActivityLines(activities).value);
    EndsWithLastLabel(Labels, [name, description, startDate, endDate, block]);
  }

  /** Only name, category and cityId of an activity reach the prompt: two
      activity lists that agree on these keys give the same prompt, whatever
      their descriptions, costs, durations and images. */
  predicate SameLineKeys(a: PyDict, b: PyDict)
  {
    && ("name" in a <==> "name" in b) && ("name" in a ==> a["name"] == b["name"])
    && ("category" in a <==> "category" in b) && ("category" in a ==> a["category"] == b["category"])
    && ("cityId" in a <==> "cityId" in b) && ("cityId" in a ==> a["cityId"] == b["cityId"])
  }

  lemma {:induction false} OnlyLineKeysMatter(xs: seq<PyDict>, ys: seq<PyDict>)
    requires |xs| == |ys|
    requires forall i :: 0 <= i < |xs| ==> SameLineKeys(xs[i], ys[i])
    ensures ActivityLines(xs) == ActivityLines(ys)
  {
    if xs != [] {
      assert ActivityLine(xs[0]) == ActivityLine(ys[0]);
      OnlyLineKeysMatter(xs[1..], ys[1..]);
    }
  }

  lemma OnlyLineKeysReachPrompt(name: string, description: string, startDate: string, endDate: string,
                                xs: seq<PyDict>, ys: seq<PyDict>)
    requires |xs| == |ys|
    requires forall i :: 0 <= i < |xs| ==> SameLineKeys(xs[i], ys[i])
    ensures ItineraryPrompt(name, description, startDate, endDate, xs)
         == ItineraryPrompt(name, description, startDate, endDate, ys)
  {
    OnlyLineKeysMatter(xs, ys);
  }
}

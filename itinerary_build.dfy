/** The itinerary builder of frontend/src/pages/ItineraryBuild.tsx: the
    trip's sections with their drag order and timeline view, the totals,
    the activity chips of the section form with their suggestions, and the
    save, delete, expand and AI-preview handlers. Dates are milliseconds
    and budgets the numbers their text parses to; server replies are
    parameters. */
module ItineraryBuild {
  import opened Common
  import opened Collections
  import opened Sorting

  /** `_id` is the server id; `localId` the numeric id of a section not yet
      saved. */
  datatype Section = Section(sid: Option<string>, localId: Option<nat>, name: string, description: string,
                             budget: int, startDate: Option<int>, endDate: Option<int>,
                             activities: seq<string>, expanded: bool)

  datatype ActivityOption = ActivityOption(id: string, name: string)

  datatype Chip = Chip(id: string, name: string)

  /** The body of a section create or update request. */
  datatype SectionBody = SectionBody(tripId: string, name: string, description: string, budget: int,
                                     startDate: int, endDate: int, activities: seq<string>)

  /** One section of the AI preview, and what saveAIPreview posts for it. */
  datatype AISection = AISection(name: string, description: string, activities: seq<string>,
                                 startDate: string, endDate: string)
  datatype AIBody = AIBody(tripId: string, name: string, description: string, budget: int,
                           startDate: string, endDate: string, activities: seq<string>)

  datatype Key = Enter | Backspace | OtherKey

  /** The fields of the loaded trip the add form is filled from; a missing
      title or description is "". */
  datatype TripInfo = TripInfo(title: string, description: string, startDate: int, endDate: int)

  const MaxSuggestions: nat := 6

  /** daysBetween: the started days from a to b, at least one. */
  function DaysBetween(a: int, b: int): (d: int)
    ensures d >= 1
    ensures b - a > MillisPerDay ==> (d - 1) * MillisPerDay < b - a <= d * MillisPerDay
    ensures b - a <= MillisPerDay ==> d == 1
  {
    var diff := CeilDiv(b - a, MillisPerDay);
    if diff > 1 then diff else 1
  }

  /** The drag-and-drop id: `sec._id || sec.id?.toString()`. */
  function DndKey(s: Section): Option<string>
  {
    if s.sid.Some? && s.sid.value != "" then s.sid
    else if s.localId.Some? then Some(NatToString(s.localId.value))
    else None
  }

  /** The test `findIndex` applies: the section's drag key is k. */
  function HasDndKey(k: Option<string>): Section -> bool
  {
    (s: Section) => DndKey(s) == k
  }

  /** arrayMove: the element at `from` taken out and put back at `to`. */
  function ArrayMove<T>(s: seq<T>, from: nat, to: nat): (r: seq<T>)
    requires from < |s| && to < |s|
    ensures |r| == |s| && r[to] == s[from]
    ensures RemoveAt(r, to) == RemoveAt(s, from)
  {
    var rest := RemoveAt(s, from);
    assert (rest[..to] + [s[from]] + rest[to..])[..to] == rest[..to];
    assert (rest[..to] + [s[from]] + rest[to..])[to + 1..] == rest[to..];
    rest[..to] + [s[from]] + rest[to..]
  }

  /** `findIndex`: the first index satisfying `p`, or -1. */
  function FindIndex<T>(s: seq<T>, p: T -> bool): (r: int)
    ensures -1 <= r < |s|
    ensures r >= 0 ==> p(s[r]) && forall j :: 0 <= j < r ==> !p(s[j])
    ensures r == -1 <==> forall j :: 0 <= j < |s| ==> !p(s[j])
  {
    match FirstIndex(s, p)
    case Some(k) => k
    case None => -1
  }

  /** The position `splice` takes a start index in [-1, n) to: a negative
      start counts from the end, so -1 is the last position. */
  function SpliceIndex(i: int, n: nat): (r: nat)
    requires n > 0 && -1 <= i < n
    ensures r < n
    ensures i >= 0 ==> r == i
    ensures i < 0 ==> r == n - 1
  {
    if i < 0 then n + i else i
  }

  /** arrayMove with the indices `findIndex` yields: a missing index (-1)
      is taken by `splice` as the last position. */
  function JsArrayMove<T>(s: seq<T>, from: int, to: int): (r: seq<T>)
    requires |s| > 0 && -1 <= from < |s| && -1 <= to < |s|
    ensures |r| == |s|
    ensures from == -1 && to >= 0 ==> r[to] == s[|s| - 1]
    ensures from >= 0 && to == -1 ==> r[|s| - 1] == s[from]
    ensures from == -1 && to == -1 ==> r == s
    ensures multiset(r) == multiset(s)
  {
    var f := SpliceIndex(from, |s|);
    var t := SpliceIndex(to, |s|);
    ArrayMovePermutes(s, f, t);
    ArrayMove(s, f, t)
  }

  /** A move keeps every section, and a move onto itself changes nothing. */
  lemma ArrayMovePermutes<T>(s: seq<T>, from: nat, to: nat)
    requires from < |s| && to < |s|
    ensures multiset(ArrayMove(s, from, to)) == multiset(s)
    ensures from == to ==> ArrayMove(s, from, to) == s
  {
    var r := ArrayMove(s, from, to);
    assert s == s[..from] + [s[from]] + s[from + 1..];
    assert r == r[..to] + [r[to]] + r[to + 1..];
    assert RemoveAt(r, to) == r[..to] + r[to + 1..];
    assert RemoveAt(s, from) == s[..from] + s[from + 1..];
    calc {
      multiset(r);
      multiset(r[..to]) + multiset{r[to]} + multiset(r[to + 1..]);
      multiset(RemoveAt(r, to)) + multiset{s[from]};
      multiset(RemoveAt(s, from)) + multiset{s[from]};
      multiset(s[..from]) + multiset{s[from]} + multiset(s[from + 1..]);
      multiset(s);
    }
  }

  function StartOrZero(s: Section): int
  {
    if s.startDate.Some? then s.startDate.value else 0
  }

  /** displaySections: a copy, sorted by start date (a missing date is 0)
      in timeline mode and as arranged otherwise. */
  function DisplaySections(sections: seq<Section>, timeline: bool): (r: seq<Section>)
    ensures multiset(r) == multiset(sections)
    ensures !timeline ==> r == sections
    ensures timeline ==> forall i, j :: 0 <= i < j < |r| ==> StartOrZero(r[i]) <= StartOrZero(r[j])
  {
    if timeline then
      ByKeyTotal(sections, StartOrZero);
      SortSorted(sections, ByKey(StartOrZero));
      var r := Sort(sections, ByKey(StartOrZero));
      assert forall i, j :: 0 <= i < j < |r| ==> ByKey(StartOrZero)(r[i], r[j]);
      r
    else sections
  }

  /** totals.totalBudget: never negative while no budget is. */
  function TotalBudget(sections: seq<Section>): (r: int)
    ensures (forall i :: 0 <= i < |sections| ==> sections[i].budget >= 0) ==> r >= 0
    decreases |sections|
  {
    if sections == [] then 0 else TotalBudget(sections[..|sections| - 1]) + sections[|sections| - 1].budget
  }

  predicate Dated(s: Section)
  {
    s.startDate.Some? && s.endDate.Some?
  }

  /** totals.totalDays: only sections with both dates count, each adding at
      least one day, so the total is at least the number of dated sections
      and is 0 when none is dated. */
  function TotalDays(sections: seq<Section>): (r: int)
    ensures r >= DatedCount(sections)
    ensures DatedCount(sections) == 0 ==> r == 0
    decreases |sections|
  {
    if sections == [] then 0
    else
      var s := sections[|sections| - 1];
      TotalDays(sections[..|sections| - 1]) + (if Dated(s) then DaysBetween(s.startDate.value, s.endDate.value) else 0)
  }

  /** totals.activitiesCount. */
  function ActivitiesCount(sections: seq<Section>): int
    decreases |sections|
  {
    if sections == [] then 0 else ActivitiesCount(sections[..|sections| - 1]) + |sections[|sections| - 1].activities|
  }

  function DatedCount(sections: seq<Section>): nat
    decreases |sections|
  {
    if sections == [] then 0 else DatedCount(sections[..|sections| - 1]) + (if Dated(sections[|sections| - 1]) then 1 else 0)
  }

  /** The totals depend only on which sections there are, so they are the
      same whichever order the timeline shows. */
  lemma {:induction false} TotalsAppend(xs: seq<Section>, ys: seq<Section>)
    ensures TotalBudget(xs + ys) == TotalBudget(xs) + TotalBudget(ys)
    ensures TotalDays(xs + ys) == TotalDays(xs) + TotalDays(ys)
    ensures ActivitiesCount(xs + ys) == ActivitiesCount(xs) + ActivitiesCount(ys)
    decreases |ys|
  {
    if ys == [] {
      assert xs + ys == xs;
    } else {
      assert (xs + ys)[..|xs + ys| - 1] == xs + ys[..|ys| - 1];
      TotalsAppend(xs, ys[..|ys| - 1]);
    }
  }

  predicate IsChip(chips: seq<Chip>, id: string)
  {
    exists i | 0 <= i < |chips| :: chips[i].id == id
  }

  predicate Suggestible(a: ActivityOption, q: string, chips: seq<Chip>)
  {
    Contains(ToLower(a.name), q) && !IsChip(chips, a.id)
  }

  /** filteredSuggestions: the first six activities whose lowercased name
      contains the trimmed, lowercased input and that are not chips yet. */
  function FilteredSuggestions(input: string, all: seq<ActivityOption>, chips: seq<Chip>): (r: seq<ActivityOption>)
    ensures |r| <= MaxSuggestions
    ensures Trim(input) == "" ==> r == []
    ensures forall i :: 0 <= i < |r| ==>
      r[i] in all && Contains(ToLower(r[i].name), ToLower(Trim(input))) && !IsChip(chips, r[i].id)
    ensures var matching := Filter(all, (a: ActivityOption) => Suggestible(a, ToLower(Trim(input)), chips));
      Trim(input) != "" ==>
        && |r| == (if |matching| < MaxSuggestions then |matching| else MaxSuggestions)
        && r == matching[..|r|]
        && IsSubsequence(r, all)
  {
    var q := ToLower(Trim(input));
    if q == [] then []
    else
      var matching := Filter(all, (a: ActivityOption) => Suggestible(a, q, chips));
      var r := Take(matching, MaxSuggestions);
      FilterSubsequence(all, (a: ActivityOption) => Suggestible(a, q, chips));
      SubsequencePrefix(matching, all, |r|);
      r
  }

  /** When fewer than six activities match, every one of them is
      suggested, in list order. */
  lemma SuggestionsComplete(input: string, all: seq<ActivityOption>, chips: seq<Chip>)
    requires ToLower(Trim(input)) != ""
    ensures var q := ToLower(Trim(input));
      var matching := Filter(all, (a: ActivityOption) => Suggestible(a, q, chips));
      |matching| <= MaxSuggestions ==> FilteredSuggestions(input, all, chips) == matching
    ensures forall a :: a in all && Suggestible(a, ToLower(Trim(input)), chips) && a !in FilteredSuggestions(input, all, chips) ==>
      |FilteredSuggestions(input, all, chips)| == MaxSuggestions
  {
  }

  /** getActivityName: the name `activityMap` holds for the id, the last
      activity with that id winning as in `Map.set`, or "Unknown" when
      there is none or the name is empty. */
  function ActivityName(all: seq<ActivityOption>, id: string): (r: string)
    ensures r != ""
    ensures (forall i :: 0 <= i < |all| ==> all[i].id != id) ==> r == "Unknown"
    decreases |all|
  {
    if all == [] then "Unknown"
    else if all[|all| - 1].id == id then (if all[|all| - 1].name != "" then all[|all| - 1].name else "Unknown")
    else ActivityName(all[..|all| - 1], id)
  }

  /** The name shown is that of the last activity with the id. */
  lemma {:induction false} ActivityNameIsLast(all: seq<ActivityOption>, id: string, i: nat)
    requires i < |all| && all[i].id == id
    requires forall j :: i < j < |all| ==> all[j].id != id
    ensures ActivityName(all, id) == if all[i].name != "" then all[i].name else "Unknown"
    decreases |all|
  {
    if i < |all| - 1 {
      ActivityNameIsLast(all[..|all| - 1], id, i);
    }
  }

  /** The chips of a section being edited, one per activity reference. */
  function ChipsFor(ids: seq<string>, all: seq<ActivityOption>): (r: seq<Chip>)
    ensures |r| == |ids|
    ensures forall i :: 0 <= i < |ids| ==> r[i] == Chip(ids[i], ActivityName(all, ids[i]))
  {
    seq(|ids|, i requires 0 <= i < |ids| => Chip(ids[i], ActivityName(all, ids[i])))
  }

  /** The X on a chip: every chip with that id goes and the others stay, in
      their order. */
  function WithoutChip(chips: seq<Chip>, id: string): (r: seq<Chip>)
    ensures !IsChip(r, id)
    ensures forall i :: 0 <= i < |chips| && chips[i].id != id ==> chips[i] in r
    ensures IsSubsequence(r, chips)
  {
    FilterSubsequence(chips, (c: Chip) => c.id != id);
    Filter(chips, (c: Chip) => c.id != id)
  }

  /** An edited section replaces every section with its id. */
  function ReplaceById(sections: seq<Section>, saved: Section): (r: seq<Section>)
    ensures |r| == |sections|
    ensures forall i :: 0 <= i < |sections| ==> r[i] == if sections[i].sid == saved.sid then saved else sections[i]
  {
    seq(|sections|, i requires 0 <= i < |sections| => if sections[i].sid == saved.sid then saved else sections[i])
  }

  /** toggleExpand: only the sections whose id equals `id` flip. */
  function ToggleExpanded(sections: seq<Section>, id: Option<string>): (r: seq<Section>)
    ensures |r| == |sections|
    ensures forall i :: 0 <= i < |sections| ==>
      r[i] == if sections[i].sid == id then sections[i].(expanded := !sections[i].expanded) else sections[i]
  {
    seq(|sections|, i requires 0 <= i < |sections| =>
      if sections[i].sid == id then sections[i].(expanded := !sections[i].expanded) else sections[i])
  }

  /** Expanding twice restores the list. */
  lemma ToggleExpandedTwice(sections: seq<Section>, id: Option<string>)
    ensures ToggleExpanded(ToggleExpanded(sections, id), id) == sections
  {
  }

  /** handleDeleteSection: every section with that id goes and the others
      stay, in their order. */
  function WithoutSection(sections: seq<Section>, id: string): (r: seq<Section>)
    ensures forall i :: 0 <= i < |r| ==> r[i].sid != Some(id)
    ensures forall i :: 0 <= i < |sections| && sections[i].sid != Some(id) ==> sections[i] in r
    ensures IsSubsequence(r, sections)
  {
    FilterSubsequence(sections, (s: Section) => s.sid != Some(id));
    Filter(sections, (s: Section) => s.sid != Some(id))
  }

  /** `if (!tripId)` lets through only a present, non-empty id. */
  predicate HasTrip(tripId: Option<string>)
  {
    tripId.Some? && tripId.value != ""
  }

  /** saveAIPreview's mapping. */
  function AIBodies(tripId: string, preview: seq<AISection>): (r: seq<AIBody>)
    ensures |r| == |preview|
    ensures forall i :: 0 <= i < |r| ==> r[i].budget == 0 && r[i].tripId == tripId
    ensures forall i :: 0 <= i < |r| ==>
      && r[i].name == preview[i].name && r[i].description == preview[i].description
      && r[i].startDate == preview[i].startDate && r[i].endDate == preview[i].endDate
      && r[i].activities == preview[i].activities
  {
    seq(|preview|, i requires 0 <= i < |preview| =>
      AIBody(tripId, preview[i].name, preview[i].description, 0, preview[i].startDate, preview[i].endDate,
             preview[i].activities))
  }

  /** The chips and input after a key press in the activity field: Enter
      takes the first suggestion, Backspace on an empty input drops the
      last chip. So Enter adds exactly one chip, a suggested activity that
      was not a chip yet, and clears the input; Backspace on an empty input
      removes exactly the last chip; any other key changes neither. */
  function KeyStep(key: Key, input: string, chips: seq<Chip>, all: seq<ActivityOption>): (r: (seq<Chip>, string))
    ensures key == Enter && Trim(input) != "" && r.0 != chips ==>
      |r.0| == |chips| + 1 && r.0[..|chips|] == chips && r.1 == ""
      && !IsChip(chips, r.0[|chips|].id) && (exists a :: a in all && r.0[|chips|] == Chip(a.id, a.name))
    ensures key == Enter && Trim(input) == "" ==> r.0 == chips && r.1 == input
    ensures key == Backspace && input == "" && chips != [] ==> r.0 == chips[..|chips| - 1] && |r.0| == |chips| - 1
    ensures key == OtherKey ==> r.0 == chips && r.1 == input
  {
    var s := FilteredSuggestions(input, all, chips);
    if key == Enter && s != [] then
      var c := chips + [Chip(s[0].id, s[0].name)];
      assert c[..|chips|] == chips && c[|chips|] == Chip(s[0].id, s[0].name);
      assert s[0] in all;
      (c, "")
    else if key == Backspace && input == "" && chips != [] then (chips[..|chips| - 1], input)
    else (chips, input)
  }

  /** Enter with suggestions appends the first one as a chip and clears the
      input; without suggestions it changes nothing. */
  lemma EnterStep(input: string, chips: seq<Chip>, all: seq<ActivityOption>)
    ensures var s := FilteredSuggestions(input, all, chips);
      && (s != [] ==> KeyStep(Enter, input, chips, all) == (chips + [Chip(s[0].id, s[0].name)], "")
                      && s[0] in all && !IsChip(chips, s[0].id))
      && (s == [] ==> KeyStep(Enter, input, chips, all) == (chips, input))
      && (Trim(input) == "" ==> s == [])
  {
  }

  class Builder {
    var sections: seq<Section>
    var allActivities: seq<ActivityOption>
    var modalOpen: bool
    var editSection: Option<Section>
    var sectionName: string
    var description: string
    var budget: int
    var startDate: Option<int>
    var endDate: Option<int>
    var chips: seq<Chip>
    var activityInput: string
    var showSuggest: bool
    var aiMode: bool
    var aiPreview: Option<seq<AISection>>

    constructor (sections: seq<Section>, allActivities: seq<ActivityOption>)
      ensures this.sections == sections && this.allActivities == allActivities
      ensures !modalOpen && editSection.None? && chips == [] && activityInput == "" && !showSuggest
      ensures !aiMode && aiPreview.None?
    {
      this.sections, this.allActivities := sections, allActivities;
      modalOpen, editSection, sectionName, description, budget := false, None, "", "", 0;
      startDate, endDate, chips, activityInput, showSuggest := None, None, [], "", false;
      aiMode, aiPreview := false, None;
    }

    /** The end of generateAI: the reply's sections, or none when the reply
        has no list; a failed request changes nothing. */
    method AIGenerated(reply: Option<Option<seq<AISection>>>)
      modifies this
      ensures reply.Some? ==> aiPreview == Some(if reply.value.Some? then reply.value.value else [])
      ensures reply.None? ==> aiPreview == old(aiPreview)
      ensures sections == old(sections) && chips == old(chips) && aiMode == old(aiMode)
    {
      if reply.Some? {
        aiPreview := Some(if reply.value.Some? then reply.value.value else []);
      }
    }

    /** saveAIPreview. Returns the bodies posted, None when there is no trip
        or no preview; `refreshed` is the trip's section list fetched after
        the post, None when a request fails. */
    method SaveAIPreview(tripId: Option<string>, refreshed: Option<seq<Section>>) returns (body: Option<seq<AIBody>>)
      modifies this
      ensures !HasTrip(tripId) || old(aiPreview).None? || old(aiPreview).value == [] ==>
        body.None? && sections == old(sections) && aiPreview == old(aiPreview) && aiMode == old(aiMode)
      ensures HasTrip(tripId) && old(aiPreview).Some? && old(aiPreview).value != [] ==>
        body == Some(AIBodies(tripId.value, old(aiPreview).value))
      ensures body.Some? && refreshed.Some? ==> sections == refreshed.value && !aiMode && aiPreview.None?
      ensures body.Some? && refreshed.None? ==>
        sections == old(sections) && aiPreview == old(aiPreview) && aiMode == old(aiMode)
      ensures chips == old(chips) && modalOpen == old(modalOpen)
    {
      if !HasTrip(tripId) || aiPreview.None? || aiPreview.value == [] {
        return None;
      }
      body := Some(AIBodies(tripId.value, aiPreview.value));
      if refreshed.Some? {
        sections, aiMode, aiPreview := refreshed.value, false, None;
      }
    }

    /** openModalForAdd: the form is filled from the trip when one is
        loaded. */
    method OpenModalForAdd(trip: Option<TripInfo>)
      modifies this
      ensures modalOpen && editSection.None? && chips == [] && activityInput == "" && !showSuggest
      ensures sectionName == if trip.Some? && trip.value.title != "" then trip.value.title + " - Section" else "New Section"
      ensures description == (if trip.Some? then trip.value.description else "") && budget == 0
      ensures startDate == (if trip.Some? then Some(trip.value.startDate) else None)
      ensures endDate == (if trip.Some? then Some(trip.value.endDate) else None)
      ensures sections == old(sections) && allActivities == old(allActivities)
    {
      var name := if trip.Some? && trip.value.title != "" then trip.value.title + " - Section" else "New Section";
      var text := if trip.Some? then trip.value.description else "";
      var start: Option<int> := if trip.Some? then Some(trip.value.startDate) else None;
      var end: Option<int> := if trip.Some? then Some(trip.value.endDate) else None;
      editSection, sectionName, description, budget, startDate, endDate := None, name, text, 0, start, end;
      chips, activityInput, showSuggest, modalOpen := [], "", false, true;
    }

    /** openModalForEdit: the form holds the section, its activities as
        named chips. */
    method OpenModalForEdit(section: Section)
      modifies this
      ensures modalOpen && editSection == Some(section) && activityInput == "" && !showSuggest
      ensures sectionName == section.name && description == section.description && budget == section.budget
      ensures startDate == section.startDate && endDate == section.endDate
      ensures chips == ChipsFor(section.activities, allActivities)
      ensures sections == old(sections) && allActivities == old(allActivities)
    {
      editSection := Some(section);
      sectionName, description, budget := section.name, section.description, section.budget;
      startDate, endDate := section.startDate, section.endDate;
      chips := ChipsFor(section.activities, allActivities);
      activityInput, showSuggest, modalOpen := "", false, true;
    }

    /** onDragEnd. An id that is not found gives index -1, which arrayMove
        takes as the last section. A drop on the dragged section itself
        changes nothing. */
    method OnDragEnd(activeId: string, overId: Option<string>)
      modifies this
      ensures var from := FindIndex(old(sections), HasDndKey(Some(activeId)));
        var to := FindIndex(old(sections), HasDndKey(overId));
        if overId != Some(activeId) && |old(sections)| > 0
        then sections == JsArrayMove(old(sections), from, to)
        else sections == old(sections)
      ensures chips == old(chips) && activityInput == old(activityInput) && modalOpen == old(modalOpen)
      ensures multiset(sections) == multiset(old(sections))
    {
      var secs := sections;
      if overId != Some(activeId) && |secs| > 0 {
        var from := FindIndex(secs, HasDndKey(Some(activeId)));
        var to := FindIndex(secs, HasDndKey(overId));
        sections := JsArrayMove(secs, from, to);
      }
    }

    method SetInput(text: string)
      modifies this
      ensures activityInput == text && showSuggest
      ensures chips == old(chips) && sections == old(sections)
    {
      activityInput, showSuggest := text, true;
    }

    /** A suggestion clicked, or the first one taken by Enter. */
    method AddChip(act: ActivityOption)
      modifies this
      ensures chips == old(chips) + [Chip(act.id, act.name)]
      ensures activityInput == "" && !showSuggest && sections == old(sections)
    {
      chips := chips + [Chip(act.id, act.name)];
      activityInput, showSuggest := "", false;
    }

    /** handleActivityInputKeyDown: Enter takes the first suggestion as
        addChipFromActivity does; Backspace on an empty input drops the
        last chip. */
    method KeyDown(key: Key)
      modifies this
      ensures (chips, activityInput) == KeyStep(key, old(activityInput), old(chips), allActivities)
      ensures showSuggest == (old(showSuggest) && !(key == Enter && FilteredSuggestions(old(activityInput), allActivities, old(chips)) != []))
      ensures sections == old(sections)
    {
      if key == Enter {
        var s := FilteredSuggestions(activityInput, allActivities, chips);
        if s != [] {
          chips, activityInput, showSuggest := chips + [Chip(s[0].id, s[0].name)], "", false;
        }
      } else if key == Backspace && activityInput == "" && chips != [] {
        chips := chips[..|chips| - 1];
      }
    }

    method RemoveChip(id: string)
      modifies this
      ensures chips == WithoutChip(old(chips), id)
      ensures activityInput == old(activityInput) && sections == old(sections)
    {
      chips := WithoutChip(chips, id);
    }

    /** handleSaveSection. Returns the request body, None when the guard
        stops it; `saved` is the server's section, None when the request
        fails. */
    method SaveSection(tripId: Option<string>, saved: Option<Section>) returns (body: Option<SectionBody>)
      modifies this
      ensures !HasTrip(tripId) || sectionName == "" || description == "" || startDate.None? || endDate.None? ==>
        body.None? && sections == old(sections) && modalOpen == old(modalOpen)
      ensures body.Some? ==>
        body.value == SectionBody(tripId.value, sectionName, description, budget, startDate.value, endDate.value,
                                  Keys(chips, (c: Chip) => c.id))
      ensures body.Some? && saved.None? ==> sections == old(sections) && modalOpen == old(modalOpen)
      ensures body.Some? && saved.Some? ==>
        && !modalOpen
        && sections == if editSection.Some? && editSection.value.sid.Some? && editSection.value.sid.value != ""
                       then ReplaceById(old(sections), saved.value)
                       else old(sections) + [saved.value]
      ensures HasTrip(tripId) && sectionName != "" && description != "" && startDate.Some? && endDate.Some? ==> body.Some?
      ensures chips == old(chips) && editSection == old(editSection) && sectionName == old(sectionName)
    {
      if !HasTrip(tripId) || sectionName == "" || description == "" || startDate.None? || endDate.None? {
        return None;
      }
      body := Some(SectionBody(tripId.value, sectionName, description, budget, startDate.value, endDate.value,
                               Keys(chips, (c: Chip) => c.id)));
      if saved.Some? {
        if editSection.Some? && editSection.value.sid.Some? && editSection.value.sid.value != "" {
          sections := ReplaceById(sections, saved.value);
        } else {
          sections := sections + [saved.value];
        }
        modalOpen := false;
      }
    }

    method DeleteSection(id: Option<string>, confirmed: bool, succeeded: bool)
      modifies this
      ensures id.Some? && id.value != "" && confirmed && succeeded ==> sections == WithoutSection(old(sections), id.value)
      ensures !(id.Some? && id.value != "" && confirmed && succeeded) ==> sections == old(sections)
      ensures chips == old(chips) && modalOpen == old(modalOpen)
    {
      if id.Some? && id.value != "" && confirmed && succeeded {
        sections := WithoutSection(sections, id.value);
      }
    }

    method ToggleExpand(id: Option<string>)
      modifies this
      ensures sections == ToggleExpanded(old(sections), id)
      ensures chips == old(chips) && modalOpen == old(modalOpen)
    {
      sections := ToggleExpanded(sections, id);
    }
  }
}

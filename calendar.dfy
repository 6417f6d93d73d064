/** The calendar page of frontend/src/pages/Calendar.tsx: each fetched trip
    becomes one all-day event, and the event's type picks its colour. Dates
    are milliseconds; an unparsable date is not modelled. */
module Calendar {
  import opened Common

  /** The fields of a fetched trip the page reads; None is a missing field. */
  datatype TripIn = TripIn(title: Option<string>, startDate: int, endDate: int, budget: Option<int>,
                           duration: Option<string>, coverPhoto: Option<string>, status: Option<string>)

  /** `trip.budget || "N/A"`: the number itself or the text N/A. */
  datatype BudgetShown = Amount(amount: int) | NotAvailable

  datatype Event = Event(title: string, start: int, end: int, budget: BudgetShown, duration: string,
                         image: string, kind: string, allDay: bool)

  const DefaultCover: string :=
    "https://images.unsplash.com/photo-1677820915366-27d887c9b872?w=600&auto=format&fit=crop&q=60&ixlib=rb-4.1.0&ixid=M3wxMjA3fDB8MHxzZWFyY2h8MTh8fG1hbmFsaXxlbnwwfDB8MHx8fDA%3D"

  function Truthy(s: Option<string>): bool
  {
    s.Some? && s.value != ""
  }

  /** The day count shown when no duration is given: the started days
      between the two dates, plus one. */
  function DurationDays(start: int, end: int): (days: int)
    ensures (days - 2) * MillisPerDay < end - start <= (days - 1) * MillisPerDay
  {
    CeilDiv(end - start, MillisPerDay) + 1
  }

  function ToEvent(t: TripIn): (e: Event)
    ensures e.title != "" && e.kind != "" && e.duration != "" && e.image != ""
    ensures e.allDay && e.start == t.startDate && e.end == t.endDate
    ensures Truthy(t.title) ==> e.title == t.title.value
    ensures !Truthy(t.title) ==> e.title == "Trip"
    ensures e.budget == NotAvailable <==> t.budget.None? || t.budget.value == 0
    ensures Truthy(t.status) ==> e.kind == t.status.value
    ensures !Truthy(t.status) ==> e.kind == "upcoming"
    ensures Truthy(t.duration) ==> e.duration == t.duration.value
    ensures !Truthy(t.duration) ==> e.duration == IntToString(DurationDays(t.startDate, t.endDate)) + " days"
  {
    Event(
      if Truthy(t.title) then t.title.value else "Trip",
      t.startDate,
      t.endDate,
      if t.budget.Some? && t.budget.value != 0 then Amount(t.budget.value) else NotAvailable,
      if Truthy(t.duration) then t.duration.value
      else IntToString(DurationDays(t.startDate, t.endDate)) + " days",
      if Truthy(t.coverPhoto) then t.coverPhoto.value else DefaultCover,
      if Truthy(t.status) then t.status.value else "upcoming",
      true)
  }

  function ToEvents(trips: seq<TripIn>): (r: seq<Event>)
    ensures |r| == |trips| && forall i :: 0 <= i < |trips| ==> r[i] == ToEvent(trips[i])
  {
    seq(|trips|, i requires 0 <= i < |trips| => ToEvent(trips[i]))
  }

  /** One event per trip, in the trips' order, each spanning its trip's
      dates. */
  lemma EventsFollowTrips(trips: seq<TripIn>)
    ensures |ToEvents(trips)| == |trips|
    ensures forall i :: 0 <= i < |trips| ==> ToEvents(trips)[i] == ToEvent(trips[i])
    ensures forall i :: 0 <= i < |trips| ==>
      ToEvents(trips)[i].start == trips[i].startDate && ToEvents(trips)[i].end == trips[i].endDate
    ensures forall i :: 0 <= i < |trips| ==> ToEvents(trips)[i].allDay
    ensures forall i, j :: 0 <= i < |trips| && 0 <= j < |trips| && trips[i] == trips[j] ==>
      ToEvents(trips)[i] == ToEvents(trips)[j]
  {
  }

  /** A trip that starts and ends on the same day lasts "1 days"; one that
      ends a day later lasts "2 days". */
  lemma SameDayIsOneDay(t: TripIn)
    requires !Truthy(t.duration)
    ensures t.endDate == t.startDate ==> ToEvent(t).duration == "1 days"
    ensures t.endDate == t.startDate + MillisPerDay ==> ToEvent(t).duration == "2 days"
  {
    if t.endDate == t.startDate {
      assert DurationDays(t.startDate, t.endDate) == 1;
    }
    if t.endDate == t.startDate + MillisPerDay {
      assert DurationDays(t.startDate, t.endDate) == 2;
    }
  }

  /** eventStyleGetter's background colour. */
  function EventColor(kind: string): (color: string)
    ensures color != "" <==> kind == "past" || kind == "ongoing" || kind == "upcoming"
  {
    if kind == "past" then "#555"
    else if kind == "ongoing" then "#8e6dc4"
    else if kind == "upcoming" then "#6c5ce7"
    else ""
  }

  /** The three colours are distinct; a completed trip, a status the trip
      model allows, gets none; an event without a status is coloured as
      upcoming. */
  lemma ColorsOfStatuses(t: TripIn)
    ensures EventColor("past") != EventColor("ongoing") && EventColor("ongoing") != EventColor("upcoming")
    ensures EventColor("upcoming") != EventColor("past")
    ensures EventColor("completed") == ""
    ensures !Truthy(t.status) ==> EventColor(ToEvent(t).kind) == "#6c5ce7"
  {
  }
}

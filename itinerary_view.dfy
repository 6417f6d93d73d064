/** The itinerary viewer of frontend/src/pages/ItineraryView.tsx: the day
    badge, the per-day budget breakdown and the totals, and the viewer's
    state (the active day, autoplay and the notification popups). Costs are
    integers; the interval and the popup timeout are the methods they call. */
module ItineraryView {
  import opened Common
  import opened Collections
  import Testimonials

  /** The `type` of an activity. */
  datatype Kind = ActivityKind | Stay | Food | Other

  datatype Activity = Activity(id: string, title: string, cost: Option<int>, kind: Option<Kind>)

  datatype Day = Day(day: int, title: Option<string>, activities: seq<Activity>)

  datatype Badge = Adventure | Culture | Foodie

  datatype Popup = Popup(id: string, title: string, message: string)

  /** getDayBadge: Adventure when some activity has type "activity", else
      Foodie when some has type "food", else Culture. */
  function DayBadge(d: Day): (b: Badge)
    ensures b == Adventure <==> exists i | 0 <= i < |d.activities| :: d.activities[i].kind == Some(ActivityKind)
    ensures b == Foodie <==>
      && (forall i | 0 <= i < |d.activities| :: d.activities[i].kind != Some(ActivityKind))
      && (exists i | 0 <= i < |d.activities| :: d.activities[i].kind == Some(Food))
  {
    if exists i | 0 <= i < |d.activities| :: d.activities[i].kind == Some(ActivityKind) then Adventure
    else if exists i | 0 <= i < |d.activities| :: d.activities[i].kind == Some(Food) then Foodie
    else Culture
  }

  /** The breakdown's bucket: `a.type ?? "other"`. */
  function KindOf(a: Activity): Kind
  {
    if a.kind.Some? then a.kind.value else Other
  }

  function CostOf(a: Activity): int
  {
    if a.cost.Some? then a.cost.value else 0
  }

  /** dayTotal's reduce over a list of activities, left to right. */
  function Costs(acts: seq<Activity>): int
    decreases |acts|
  {
    if acts == [] then 0 else Costs(acts[..|acts| - 1]) + CostOf(acts[|acts| - 1])
  }

  /** The costs charged to one bucket. */
  function KindCost(acts: seq<Activity>, k: Kind): int
    decreases |acts|
  {
    if acts == [] then 0
    else KindCost(acts[..|acts| - 1], k) + (if KindOf(acts[|acts| - 1]) == k then CostOf(acts[|acts| - 1]) else 0)
  }

  /** dayTotal: the sum over the activities, which the four buckets of the
      breakdown split between them. */
  function DayTotal(d: Day): (r: int)
    ensures r == KindCost(d.activities, ActivityKind) + KindCost(d.activities, Stay)
               + KindCost(d.activities, Food) + KindCost(d.activities, Other)
  {
    BucketsSumToCosts(d.activities);
    Costs(d.activities)
  }

  /** The four buckets together hold every activity's cost. */
  lemma {:induction false} BucketsSumToCosts(acts: seq<Activity>)
    ensures KindCost(acts, ActivityKind) + KindCost(acts, Stay) + KindCost(acts, Food) + KindCost(acts, Other)
            == Costs(acts)
    decreases |acts|
  {
    if acts != [] {
      BucketsSumToCosts(acts[..|acts| - 1]);
    }
  }

  /** Without costs of the other kinds, a bucket holds the whole day. */
  lemma {:induction false} SingleKindDay(acts: seq<Activity>, k: Kind)
    requires forall i :: 0 <= i < |acts| ==> KindOf(acts[i]) == k
    ensures KindCost(acts, k) == Costs(acts)
    decreases |acts|
  {
    if acts != [] {
      SingleKindDay(acts[..|acts| - 1], k);
    }
  }

  lemma {:induction false} CostsAppend(xs: seq<Activity>, ys: seq<Activity>)
    ensures Costs(xs + ys) == Costs(xs) + Costs(ys)
    decreases |ys|
  {
    if ys == [] {
      assert xs + ys == xs;
    } else {
      assert (xs + ys)[..|xs + ys| - 1] == xs + ys[..|ys| - 1];
      CostsAppend(xs, ys[..|ys| - 1]);
    }
  }

  /** Every activity of the trip, day after day. */
  function AllActivities(days: seq<Day>): seq<Activity>
    decreases |days|
  {
    if days == [] then [] else AllActivities(days[..|days| - 1]) + days[|days| - 1].activities
  }

  /** grandTotal's reduce over the days: the cost of every activity of the
      trip, whichever day it falls on. */
  function GrandTotal(days: seq<Day>): (r: int)
    ensures r == Costs(AllActivities(days))
    decreases |days|
  {
    if days == [] then 0
    else
      var init, last := days[..|days| - 1], days[|days| - 1];
      CostsAppend(AllActivities(init), last.activities);
      GrandTotal(init) + DayTotal(last)
  }

  const AllKinds: set<Kind> := {ActivityKind, Stay, Food, Other}

  /** budgetBreakdown: every bucket starts at 0 and the active day's
      activities are added one by one; an index without a day leaves all
      four at 0. */
  method BudgetBreakdown(days: seq<Day>, active: int) returns (b: map<Kind, int>)
    ensures b.Keys == AllKinds
    ensures 0 <= active < |days| ==> forall k :: k in b ==> b[k] == KindCost(days[active].activities, k)
    ensures 0 <= active < |days| ==> b[ActivityKind] + b[Stay] + b[Food] + b[Other] == DayTotal(days[active])
    ensures !(0 <= active < |days|) ==> forall k :: k in b ==> b[k] == 0
  {
    b := map[ActivityKind := 0, Stay := 0, Food := 0, Other := 0];
    if 0 <= active < |days| {
      var acts := days[active].activities;
      var i := 0;
      while i < |acts|
        invariant 0 <= i <= |acts|
        invariant b.Keys == AllKinds
        invariant forall k :: k in b ==> b[k] == KindCost(acts[..i], k)
      {
        assert acts[..i + 1][..i] == acts[..i];
        var k := KindOf(acts[i]);
        assert k in b by {
          match k { case ActivityKind => case Stay => case Food => case Other => }
        }
        b := b[k := b[k] + CostOf(acts[i])];
        i := i + 1;
      }
      assert acts[..i] == acts;
      BucketsSumToCosts(acts);
    }
  }

  /** `next`: one day on, never past the last day. On an itinerary with no
      days it gives -1. */
  function NextDay(i: int, n: nat): (j: int)
    ensures j <= n - 1 && j <= i + 1
    ensures i + 1 <= n - 1 ==> j == i + 1
    ensures 0 <= i < n ==> 0 <= j < n
  {
    if i + 1 < n - 1 then i + 1 else n - 1
  }

  /** `prev`: one day back, never below 0. */
  function PrevDay(i: int): (j: int)
    ensures j >= 0
    ensures i >= 1 ==> j == i - 1
    ensures i <= 1 ==> j == 0
  {
    if i - 1 > 0 then i - 1 else 0
  }

  /** One autoplay tick: the next day, or back to the first after the
      last. */
  function AutoAdvance(i: int, n: nat): (j: int)
    ensures i >= 0 ==> j >= 0
    ensures i + 1 < n ==> j == i + 1
    ensures i + 1 >= n ==> j == 0
  {
    if i + 1 < n then i + 1 else 0
  }

  /** k autoplay ticks. */
  function Ticks(i: int, n: nat, k: nat): (r: int)
    ensures i >= 0 ==> r >= 0
    ensures 0 <= i < n ==> r < n
    decreases k
  {
    if k == 0 then i else AutoAdvance(Ticks(i, n, k - 1), n)
  }

  /** From a day index, autoplay behaves like the testimonial slider's
      modulo step: k ticks land on (i + k) mod n, so n ticks come back. */
  lemma {:induction false} TicksAreModulo(i: nat, n: nat, k: nat)
    requires i < n
    ensures Ticks(i, n, k) == (i + k) % n
    ensures Ticks(i, n, n) == i
    decreases k
  {
    TicksAreAdvance(i, n, k);
    Testimonials.AdvanceIsModulo(i, n, k);
    TicksAreAdvance(i, n, n);
    Testimonials.AdvanceIsModulo(i, n, n);
    assert (i + n) % n == i by {
      Testimonials.ModUnique(i + n, n, 1, i);
    }
  }

  lemma {:induction false} TicksAreAdvance(i: nat, n: nat, k: nat)
    requires i < n
    ensures Ticks(i, n, k) == Testimonials.Advance(i, n, k)
    decreases k
  {
    if k > 0 {
      TicksAreAdvance(i, n, k - 1);
    }
  }

  /** Closing a popup, by its button or its timeout: every popup with that
      id goes and the others stay, in their order. */
  function WithoutPopup(popups: seq<Popup>, id: string): (r: seq<Popup>)
    ensures forall i :: 0 <= i < |r| ==> r[i].id != id
    ensures forall i :: 0 <= i < |popups| && popups[i].id != id ==> popups[i] in r
    ensures IsSubsequence(r, popups)
  {
    FilterSubsequence(popups, (p: Popup) => p.id != id);
    Filter(popups, (p: Popup) => p.id != id)
  }

  /** A popup shown with a fresh id and then closed leaves the list as it
      was. */
  lemma ShowThenClose(popups: seq<Popup>, p: Popup)
    requires forall i :: 0 <= i < |popups| ==> popups[i].id != p.id
    ensures WithoutPopup(popups + [p], p.id) == popups
  {
    FilterAppend(popups, [p], (q: Popup) => q.id != p.id);
    FilterAll(popups, (q: Popup) => q.id != p.id);
  }

  class Viewer {
    const days: seq<Day>
    var activeDayIndex: int
    var playing: bool
    var popups: seq<Popup>

    /** The active day is a day of the itinerary whenever there is one. */
    ghost predicate Valid()
      reads this
    {
      |days| > 0 ==> 0 <= activeDayIndex < |days|
    }

    constructor (days: seq<Day>)
      ensures this.days == days && activeDayIndex == 0 && !playing && popups == []
      ensures Valid()
    {
      this.days := days;
      activeDayIndex, playing, popups := 0, false, [];
    }

    method Next()
      requires Valid()
      modifies this
      ensures activeDayIndex == NextDay(old(activeDayIndex), |days|)
      ensures playing == old(playing) && popups == old(popups)
      ensures Valid()
    {
      activeDayIndex := NextDay(activeDayIndex, |days|);
    }

    method Prev()
      requires Valid()
      modifies this
      ensures activeDayIndex == PrevDay(old(activeDayIndex))
      ensures playing == old(playing) && popups == old(popups)
      ensures Valid()
    {
      activeDayIndex := PrevDay(activeDayIndex);
    }

    /** A day button, which also stops autoplay. */
    method SelectDay(idx: nat)
      requires idx < |days|
      modifies this
      ensures activeDayIndex == idx && !playing && popups == old(popups)
      ensures Valid()
    {
      activeDayIndex, playing := idx, false;
    }

    /** The restart button. */
    method Restart()
      modifies this
      ensures activeDayIndex == 0 && !playing && popups == old(popups)
      ensures Valid()
    {
      activeDayIndex, playing := 0, false;
    }

    method TogglePlay()
      modifies this
      ensures playing == !old(playing)
      ensures activeDayIndex == old(activeDayIndex) && popups == old(popups)
    {
      playing := !playing;
    }

    /** One interval tick; the interval runs only while playing. */
    method Tick()
      requires playing && Valid()
      modifies this
      ensures activeDayIndex == AutoAdvance(old(activeDayIndex), |days|)
      ensures playing && popups == old(popups)
      ensures Valid()
    {
      activeDayIndex := AutoAdvance(activeDayIndex, |days|);
    }

    method ShowPopup(p: Popup)
      modifies this
      ensures popups == old(popups) + [p]
      ensures activeDayIndex == old(activeDayIndex) && playing == old(playing)
    {
      popups := popups + [p];
    }

    /** The close button, and the timeout five seconds after showing. */
    method ClosePopup(id: string)
      modifies this
      ensures popups == WithoutPopup(old(popups), id)
      ensures activeDayIndex == old(activeDayIndex) && playing == old(playing)
    {
      popups := WithoutPopup(popups, id);
    }
  }
}

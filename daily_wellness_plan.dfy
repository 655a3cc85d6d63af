/** `DailyWellnessPlanView`: the activities of the current day, grouped by
    time slot, each of which the user can mark done or undone. */
module DailyWellnessPlan {
  import opened Wrappers
  import opened Text
  import opened Uuids
  import opened PlanTypes

  const TIME_SLOTS: seq<string> := ["Morning", "Afternoon", "Evening", "Night"]
  const WELL_DONE: string := "Well done! \U{1F609}+1"

  // ---------------------------------------------------------------------------
  // Toggling one activity
  // ---------------------------------------------------------------------------

  /** `firstIndex(where: { $0.id == id })`. */
  function FirstIndexOf(activities: seq<Activity>, id: Uuid): (r: Option<nat>)
    ensures r.Some? ==> r.value < |activities| && activities[r.value].id == id
    ensures r.Some? ==> forall j | 0 <= j < r.value :: activities[j].id != id
    ensures r.None? ==> forall j | 0 <= j < |activities| :: activities[j].id != id
  {
    if activities == [] then None
    else if activities[0].id == id then Some(0)
    else match FirstIndexOf(activities[1..], id)
      case None => None
      case Some(i) => Some(i + 1)
  }

  /** The activity with its completion flag flipped. */
  function Flipped(a: Activity): Activity
  {
    a.(isCompleted := !a.isCompleted)
  }

  /** The activities after `completeActivity`: the first one with the id is
      flipped; without one, nothing changes. */
  function Toggled(activities: seq<Activity>, id: Uuid): seq<Activity>
  {
    match FirstIndexOf(activities, id)
    case None => activities
    case Some(i) => activities[i := Flipped(activities[i])]
  }

  /** Only the completion flag of the first activity with the id changes;
      every other activity, and every other field, stays as it was. */
  lemma ToggleFlipsFirstMatch(activities: seq<Activity>, id: Uuid, i: nat)
    requires i < |activities| && activities[i].id == id
    requires forall j | 0 <= j < i :: activities[j].id != id
    ensures var t := Toggled(activities, id);
            && |t| == |activities|
            && t[i].isCompleted == !activities[i].isCompleted
            && t[i] == activities[i].(isCompleted := t[i].isCompleted)
            && forall j | 0 <= j < |activities| && j != i :: t[j] == activities[j]
  {
    FirstIndexIsUnique(activities, id, i);
  }

  /** Without an activity with the id, the day is unchanged. */
  lemma ToggleWithoutMatch(activities: seq<Activity>, id: Uuid)
    requires forall j | 0 <= j < |activities| :: activities[j].id != id
    ensures Toggled(activities, id) == activities
  {
  }

  /** Toggling twice restores the day. */
  lemma ToggleTwiceRestores(activities: seq<Activity>, id: Uuid)
    ensures Toggled(Toggled(activities, id), id) == activities
  {
    var r := FirstIndexOf(activities, id);
    if r.Some? {
      var once := Toggled(activities, id);
      var i := r.value;
      assert forall j | 0 <= j < i :: once[j] == activities[j];
      assert FirstIndexOf(once, id) == Some(i) by {
        var s := FirstIndexOf(once, id);
        assert once[i].id == id;
        assert s.Some?;
      }
      assert once[i := Flipped(once[i])] == activities;
    }
  }

  // ---------------------------------------------------------------------------
  // Grouping by time slot
  // ---------------------------------------------------------------------------

  /** `$0.timeSlot.lowercased() == timeSlot.lowercased()`. */
  predicate InSlot(a: Activity, slot: string)
  {
    Lowercased(a.timeSlot) == Lowercased(slot)
  }

  /** `filter` with any test, in order. */
  function Filtered<T>(xs: seq<T>, keep: T -> bool): seq<T>
  {
    if xs == [] then [] else (if keep(xs[0]) then [xs[0]] else []) + Filtered(xs[1..], keep)
  }

  /** `filter` keeps exactly the elements that pass the test, each as often
      as it occurs. */
  lemma {:induction false} FilteredKeeps<T>(xs: seq<T>, keep: T -> bool)
    ensures |Filtered(xs, keep)| <= |xs|
    ensures forall x :: x in Filtered(xs, keep) <==> x in xs && keep(x)
    ensures forall x :: multiset(Filtered(xs, keep))[x] == if keep(x) then multiset(xs)[x] else 0
    decreases |xs|
  {
    if xs != [] {
      FilteredKeeps(xs[1..], keep);
      assert xs == [xs[0]] + xs[1..];
    }
  }

  /** Filtering a joined list filters each part. */
  lemma {:induction false} FilteredOfJoin<T>(xs: seq<T>, ys: seq<T>, keep: T -> bool)
    ensures Filtered(xs + ys, keep) == Filtered(xs, keep) + Filtered(ys, keep)
    decreases |xs|
  {
    if xs == [] {
      assert xs + ys == ys;
    } else {
      assert (xs + ys)[0] == xs[0] && (xs + ys)[1..] == xs[1..] + ys;
      FilteredOfJoin(xs[1..], ys, keep);
    }
  }

  /** `activities.filter { ... }` for one slot, in plan order. */
  function SlotActivities(activities: seq<Activity>, slot: string): (r: seq<Activity>)
    ensures |r| <= |activities|
    ensures forall a :: a in r <==> a in activities && InSlot(a, slot)
    ensures forall a :: multiset(r)[a] == if InSlot(a, slot) then multiset(activities)[a] else 0
  {
    FilteredKeeps(activities, a => InSlot(a, slot));
    Filtered(activities, a => InSlot(a, slot))
  }

  /** Filtering one activity keeps it exactly when it is in the slot. */
  lemma SlotActivitiesOfOne(a: Activity, slot: string)
    ensures SlotActivities([a], slot) == if InSlot(a, slot) then [a] else []
  {
    assert [a][1..] == [];
  }

  /** Filtering keeps plan order: the activities of a joined list are those
      of its first part followed by those of its second. */
  lemma SlotActivitiesOfJoin(xs: seq<Activity>, ys: seq<Activity>, slot: string)
    ensures SlotActivities(xs + ys, slot) == SlotActivities(xs, slot) + SlotActivities(ys, slot)
  {
    FilteredOfJoin(xs, ys, a => InSlot(a, slot));
  }

  /** One section of the list: its header and its activities. */
  datatype Section = Section(header: string, activities: seq<Activity>)

  /** The sections for `slots`, in order, leaving out empty ones. */
  function SectionsFor(activities: seq<Activity>, slots: seq<string>): (sections: seq<Section>)
    ensures forall k | 0 <= k < |sections| ::
      && sections[k].header in slots
      && sections[k].activities == SlotActivities(activities, sections[k].header)
      && sections[k].activities != []
    ensures forall s | s in slots && SlotActivities(activities, s) != [] ::
      Section(s, SlotActivities(activities, s)) in sections
  {
    if slots == [] then []
    else
      var rest := SectionsFor(activities, slots[1..]);
      var here := SlotActivities(activities, slots[0]);
      if here == [] then rest else [Section(slots[0], here)] + rest
  }

  /** The sections the day's list shows: Morning, Afternoon, Evening and
      Night, in that order, each holding the activities whose slot matches
      it regardless of case, and only when it has some. */
  function Sections(plan: DayPlan): seq<Section>
  {
    SectionsFor(plan.activities, TIME_SLOTS)
  }

  /** The headers of `sections`, in order. */
  function Headers(sections: seq<Section>): seq<string>
  {
    if sections == [] then [] else [sections[0].header] + Headers(sections[1..])
  }

  /** `xs` is `ys` with some elements left out, in the same order. */
  predicate IsSubsequence(xs: seq<string>, ys: seq<string>)
  {
    if xs == [] then true
    else if ys == [] then false
    else if xs[0] == ys[0] then IsSubsequence(xs[1..], ys[1..])
    else IsSubsequence(xs, ys[1..])
  }

  /** The headers follow the fixed slot order. */
  lemma {:induction false} SectionsInSlotOrder(activities: seq<Activity>, slots: seq<string>)
    ensures IsSubsequence(Headers(SectionsFor(activities, slots)), slots)
  {
    if slots != [] {
      var rest := SectionsFor(activities, slots[1..]);
      SectionsInSlotOrder(activities, slots[1..]);
      var here := SlotActivities(activities, slots[0]);
      if here != [] {
        var sections := [Section(slots[0], here)] + rest;
        assert SectionsFor(activities, slots) == sections;
        assert sections[1..] == rest;
        assert Headers(sections) == [slots[0]] + Headers(rest);
      } else {
        assert SectionsFor(activities, slots) == rest;
        SubsequenceDropHead(Headers(rest), slots[1..], slots[0]);
        assert [slots[0]] + slots[1..] == slots;
      }
    }
  }

  /** A subsequence of `ys` is also one of `[y] + ys`. */
  lemma {:induction false} SubsequenceDropHead(xs: seq<string>, ys: seq<string>, y: string)
    requires IsSubsequence(xs, ys)
    ensures IsSubsequence(xs, [y] + ys)
    decreases |xs| + |ys|, 1
  {
    if xs != [] && xs[0] == y {
      SubsequenceTail(xs, ys);
      assert ([y] + ys)[1..] == ys;
    } else if xs != [] {
      assert ([y] + ys)[1..] == ys;
    }
  }

  /** Dropping the first element of a subsequence keeps it one. */
  lemma {:induction false} SubsequenceTail(xs: seq<string>, ys: seq<string>)
    requires xs != [] && IsSubsequence(xs, ys)
    ensures IsSubsequence(xs[1..], ys)
    decreases |xs| + |ys|, 0
  {
    assert ys != [];
    assert [ys[0]] + ys[1..] == ys;
    if xs[0] == ys[0] {
      SubsequenceDropHead(xs[1..], ys[1..], ys[0]);
    } else {
      SubsequenceTail(xs, ys[1..]);
      SubsequenceDropHead(xs[1..], ys[1..], ys[0]);
    }
  }

  /** The activities the list shows, section after section. */
  function Listed(sections: seq<Section>): seq<Activity>
  {
    if sections == [] then [] else sections[0].activities + Listed(sections[1..])
  }

  /** An activity is shown under some section for `slots` exactly when it is
      in the day and its slot matches one of `slots` regardless of case. */
  lemma {:induction false} ListedFor(activities: seq<Activity>, slots: seq<string>, a: Activity)
    ensures a in Listed(SectionsFor(activities, slots)) <==> a in activities && exists s | s in slots :: InSlot(a, s)
  {
    if slots != [] {
      ListedFor(activities, slots[1..], a);
      var rest := SectionsFor(activities, slots[1..]);
      var here := SlotActivities(activities, slots[0]);
      assert forall s :: s in slots <==> s == slots[0] || s in slots[1..];
      if here == [] {
        assert SectionsFor(activities, slots) == rest;
        assert a !in here;
      } else {
        var sections := [Section(slots[0], here)] + rest;
        assert SectionsFor(activities, slots) == sections;
        assert sections[1..] == rest;
        assert Listed(sections) == here + Listed(rest);
      }
    }
  }

  /** An activity is listed exactly when its slot matches one of the four
      names regardless of case; any other slot never shows. */
  lemma ShownActivities(plan: DayPlan, a: Activity)
    ensures a in Listed(Sections(plan)) <==> a in plan.activities && exists s | s in TIME_SLOTS :: InSlot(a, s)
  {
    ListedFor(plan.activities, TIME_SLOTS, a);
  }

  /** An activity belongs to a slot exactly when its slot name is that
      slot's name written with any mix of upper- and lower-case letters. */
  lemma SlotCaseIgnored(a: Activity, slot: string)
    ensures InSlot(a, slot) <==>
      |a.timeSlot| == |slot| && forall k | 0 <= k < |slot| :: SameIgnoringCase(a.timeSlot[k], slot[k])
  {
    LowercasedEqual(a.timeSlot, slot);
  }

  // ---------------------------------------------------------------------------
  // The view
  // ---------------------------------------------------------------------------

  class DailyWellnessPlanView {
    /** The day on screen, once loaded. */
    var currentDayPlan: Option<DayPlan>
    /** `wellnessPlanViewModel.isLoading`. */
    var isLoading: bool
    var showPopup: bool
    var popupMessage: string
    /** Reloads of the day plan scheduled after a completion. */
    var pendingReloads: nat

    constructor (isLoading: bool)
      ensures currentDayPlan == None && this.isLoading == isLoading
      ensures !showPopup && popupMessage == [] && pendingReloads == 0
    {
      currentDayPlan := None;
      this.isLoading := isLoading;
      showPopup := false;
      popupMessage := [];
      pendingReloads := 0;
    }

    /** The loading screen is up while the plan loads or when there is no
        day to show. */
    predicate ShowsLoading()
      reads this
    {
      isLoading || currentDayPlan.None?
    }

    /** The sections on screen; none while loading. */
    function VisibleSections(): (sections: seq<Section>)
      reads this
      ensures ShowsLoading() ==> sections == []
      ensures !ShowsLoading() ==> sections == Sections(currentDayPlan.value)
    {
      if ShowsLoading() then [] else Sections(currentDayPlan.value)
    }

    /** `firstIndex(where:)` on the day on screen. */
    method FindActivity(id: Uuid) returns (index: Option<nat>)
      ensures index == (if currentDayPlan.None? then None else FirstIndexOf(currentDayPlan.value.activities, id))
    {
      if currentDayPlan.None? {
        return None;
      }
      var activities := currentDayPlan.value.activities;
      var i := 0;
      while i < |activities|
        invariant 0 <= i <= |activities|
        invariant forall j | 0 <= j < i :: activities[j].id != id
      {
        if activities[i].id == id {
          FirstIndexIsUnique(activities, id, i);
          return Some(i);
        }
        i := i + 1;
      }
      return None;
    }

    /** `completeActivity(activity)`: the first activity on screen with the
        same id is flipped; when the view model reports it completed, the
        "Well done!" popup shows; a reload is scheduled. Without such an
        activity nothing happens. */
    method CompleteActivity(activity: Activity, completedInViewModel: bool)
      modifies this
      ensures currentDayPlan == (match old(currentDayPlan)
        case None => None
        case Some(p) => Some(p.(activities := Toggled(p.activities, activity.id))))
      ensures var found := old(currentDayPlan).Some? && FirstIndexOf(old(currentDayPlan).value.activities, activity.id).Some?;
              && (found ==> pendingReloads == old(pendingReloads) + 1)
              && (found && completedInViewModel ==> showPopup && popupMessage == WELL_DONE)
              && (!found || !completedInViewModel ==> showPopup == old(showPopup) && popupMessage == old(popupMessage))
              && (!found ==> pendingReloads == old(pendingReloads))
      ensures isLoading == old(isLoading)
    {
      var index := FindActivity(activity.id);
      if index.None? {
        return;
      }
      var p := currentDayPlan.value;
      var i := index.value;
      currentDayPlan := Some(p.(activities := p.activities[i := Flipped(p.activities[i])]));
      if completedInViewModel {
        showPopup := true;
        popupMessage := WELL_DONE;
      }
      pendingReloads := pendingReloads + 1;
    }
  }

  /** The first index with the id is the one `FirstIndexOf` finds. */
  lemma FirstIndexIsUnique(activities: seq<Activity>, id: Uuid, i: nat)
    requires i < |activities| && activities[i].id == id
    requires forall j | 0 <= j < i :: activities[j].id != id
    ensures FirstIndexOf(activities, id) == Some(i)
  {
  }
}

/** The wellness-plan entities: an activity, the plan of one day, and the
    activity category with its raw value. */
module PlanTypes {
  import opened Wrappers
  import opened Uuids

  /** `ActivityCategory`, a string-backed enumeration. */
  datatype ActivityCategory = Exercise | Mindfulness | Social | Creative | Rest | Other

  /** `category.rawValue`; every raw value reads back as its own category. */
  function RawValue(c: ActivityCategory): (raw: string)
    ensures CategoryFromRaw(raw) == Some(c)
  {
    match c
    case Exercise => "Exercise"
    case Mindfulness => "Mindfulness"
    case Social => "Social"
    case Creative => "Creative"
    case Rest => "Rest"
    case Other => "Other"
  }

  /** `ActivityCategory(rawValue: raw)`: only the six raw values are accepted. */
  function CategoryFromRaw(raw: string): Option<ActivityCategory>
  {
    if raw == "Exercise" then Some(Exercise)
    else if raw == "Mindfulness" then Some(Mindfulness)
    else if raw == "Social" then Some(Social)
    else if raw == "Creative" then Some(Creative)
    else if raw == "Rest" then Some(Rest)
    else if raw == "Other" then Some(Other)
    else None
  }

  /** One activity of a day; `isCompleted` is the only field the app changes
      after the plan is built. */
  datatype Activity = Activity(
    id: Uuid,
    title: string,
    content: string,
    duration: int,
    category: ActivityCategory,
    isCompleted: bool,
    timeSlot: string)

  /** The activities of one numbered day. */
  datatype DayPlan = DayPlan(dayNumber: int, activities: seq<Activity>)
}

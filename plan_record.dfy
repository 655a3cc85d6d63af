/** The stored form of a plan, as `savePlanToFirebase` and
    `updatePlanInFirebase` write it and `fetchCurrentPlan` reads it back:
    `{creationDate, plan: [{dayNumber, activities: [{id, timeSlot, duration,
    title, content, category, isCompleted}]}]}`. */
module PlanRecord {
  import opened Wrappers
  import opened Uuids
  import opened PlanTypes

  /** A field value of a stored document, as far as the app writes and reads
      them. A timestamp is a point in time on an integer clock. */
  datatype Value =
    | IntValue(i: int)
    | StringValue(s: string)
    | BoolValue(b: bool)
    | TimestampValue(t: int)
    | ArrayValue(items: seq<Value>)
    | MapValue(fields: map<string, Value>)

  /** A document, or a `[String: Any]` dictionary inside one. */
  type Document = map<string, Value>

  const ACTIVITY_KEYS: set<string> := {"id", "timeSlot", "duration", "title", "content", "category", "isCompleted"}
  const DAY_KEYS: set<string> := {"dayNumber", "activities"}
  const PLAN_KEYS: set<string> := {"creationDate", "plan"}

  // ---------------------------------------------------------------------------
  // Writing
  // ---------------------------------------------------------------------------

  /** The seven fields of a stored activity; the id is written as its
      `uuidString` and the category as its raw value. */
  function EncodeActivity(a: Activity): (fields: Document)
    ensures fields.Keys == ACTIVITY_KEYS
  {
    map["id" := StringValue(UuidString(a.id)),
        "timeSlot" := StringValue(a.timeSlot),
        "duration" := IntValue(a.duration),
        "title" := StringValue(a.title),
        "content" := StringValue(a.content),
        "category" := StringValue(RawValue(a.category)),
        "isCompleted" := BoolValue(a.isCompleted)]
  }

  /** The two fields of a stored day. */
  function EncodeDay(d: DayPlan): (fields: Document)
    ensures fields.Keys == DAY_KEYS
  {
    map["dayNumber" := IntValue(d.dayNumber),
        "activities" := ArrayValue(seq(|d.activities|, i requires 0 <= i < |d.activities| => MapValue(EncodeActivity(d.activities[i]))))]
  }

  /** `plan.map { ... }`: one dictionary per day, in plan order. */
  function EncodePlan(plan: seq<DayPlan>): (items: seq<Value>)
    ensures |items| == |plan|
    ensures forall i | 0 <= i < |plan| :: items[i] == MapValue(EncodeDay(plan[i]))
  {
    seq(|plan|, i requires 0 <= i < |plan| => MapValue(EncodeDay(plan[i])))
  }

  /** The document written for `plan` with the given creation date. */
  function PlanDocument(plan: seq<DayPlan>, creationDate: int): (doc: Document)
    ensures doc.Keys == PLAN_KEYS
    ensures doc["creationDate"] == TimestampValue(creationDate)
    ensures doc["plan"] == ArrayValue(EncodePlan(plan))
  {
    map["creationDate" := TimestampValue(creationDate), "plan" := ArrayValue(EncodePlan(plan))]
  }

  // ---------------------------------------------------------------------------
  // Reading
  // ---------------------------------------------------------------------------

  /** `value as? [[String: Any]]`: an array all of whose elements are
      dictionaries. */
  function AsDocuments(v: Value): Option<seq<Document>>
  {
    if v.ArrayValue? && forall i | 0 <= i < |v.items| :: v.items[i].MapValue? then
      Some(seq(|v.items|, i requires 0 <= i < |v.items| => v.items[i].fields))
    else None
  }

  /** An array of dictionaries reads back as those dictionaries, in order. */
  lemma AsDocumentsReadsBack(ds: seq<Document>)
    ensures AsDocuments(ArrayValue(seq(|ds|, i requires 0 <= i < |ds| => MapValue(ds[i])))) == Some(ds)
  {
    var v := ArrayValue(seq(|ds|, i requires 0 <= i < |ds| => MapValue(ds[i])));
    assert forall i | 0 <= i < |v.items| :: v.items[i].MapValue?;
    assert AsDocuments(v).value == ds;
  }

  /** Anything but an array, or an array with one element that is not a
      dictionary, is not a list of dictionaries. */
  lemma AsDocumentsRejects(v: Value, i: int)
    ensures !v.ArrayValue? ==> AsDocuments(v) == None
    ensures v.ArrayValue? && 0 <= i < |v.items| && !v.items[i].MapValue? ==> AsDocuments(v) == None
  {
  }

  function StringField(d: Document, key: string): Option<string>
  {
    if key in d && d[key].StringValue? then Some(d[key].s) else None
  }

  function IntField(d: Document, key: string): Option<int>
  {
    if key in d && d[key].IntValue? then Some(d[key].i) else None
  }

  function BoolField(d: Document, key: string): Option<bool>
  {
    if key in d && d[key].BoolValue? then Some(d[key].b) else None
  }

  /** The activity a stored dictionary describes: all seven fields must be
      present with the right types and the category must be a known raw
      value; an id that does not read as a UUID is replaced by `fallbackId`. */
  function DecodeActivity(d: Document, fallbackId: Uuid): Option<Activity>
  {
    var id := StringField(d, "id");
    var title := StringField(d, "title");
    var content := StringField(d, "content");
    var duration := IntField(d, "duration");
    var raw := StringField(d, "category");
    var timeSlot := StringField(d, "timeSlot");
    var isCompleted := BoolField(d, "isCompleted");
    if id.None? || title.None? || content.None? || duration.None? || raw.None? || timeSlot.None? || isCompleted.None? then None
    else match CategoryFromRaw(raw.value)
      case None => None
      case Some(category) =>
        var uuid := match ParseUuid(id.value) case Some(u) => u case None => fallbackId;
        Some(Activity(uuid, title.value, content.value, duration.value, category, isCompleted.value, timeSlot.value))
  }

  /** `compactMap` with the position of each element: the elements for
      which `f` gives a value, in order. */
  function CompactMap<A, B>(xs: seq<A>, f: (nat, A) -> Option<B>): seq<B>
  {
    if xs == [] then []
    else
      var init := CompactMap(xs[..|xs| - 1], f);
      match f(|xs| - 1, xs[|xs| - 1])
      case Some(y) => init + [y]
      case None => init
  }

  /** The day a stored dictionary describes: the activities that decode, in
      order. `freshId(p, q)` is the id `UUID()` gives activity `q` of day `p`
      when its stored id is unreadable. */
  function DecodeDay(d: Document, dayPos: nat, freshId: (nat, nat) -> Uuid): Option<DayPlan>
  {
    match (IntField(d, "dayNumber"), if "activities" in d then AsDocuments(d["activities"]) else None)
    case (Some(dayNumber), Some(activities)) =>
      Some(DayPlan(dayNumber, CompactMap(activities, (q: nat, a: Document) => DecodeActivity(a, freshId(dayPos, q)))))
    case _ => None
  }

  /** The plan and creation date a stored document describes, or nothing
      when `plan` is not an array of dictionaries or `creationDate` is not a
      timestamp. Days that do not decode are skipped. */
  function DecodePlanDocument(doc: Document, freshId: (nat, nat) -> Uuid): Option<(seq<DayPlan>, int)>
  {
    match (if "plan" in doc then AsDocuments(doc["plan"]) else None)
    case None => None
    case Some(days) =>
      if "creationDate" in doc && doc["creationDate"].TimestampValue? then
        Some((CompactMap(days, (p: nat, d: Document) => DecodeDay(d, p, freshId)), doc["creationDate"].t))
      else None
  }

  // ---------------------------------------------------------------------------
  // Reading back what was written
  // ---------------------------------------------------------------------------

  /** When `f` succeeds on every element, `compactMap` keeps them all. */
  lemma {:induction false} CompactMapAll<A, B>(xs: seq<A>, f: (nat, A) -> Option<B>, ys: seq<B>)
    requires |ys| == |xs|
    requires forall i | 0 <= i < |xs| :: f(i, xs[i]) == Some(ys[i])
    ensures CompactMap(xs, f) == ys
  {
    if xs != [] {
      var n := |xs| - 1;
      CompactMapAll(xs[..n], f, ys[..n]);
      assert ys == ys[..n] + [ys[n]];
    }
  }

  /** A stored activity reads back as itself. */
  lemma DecodeEncodeActivity(a: Activity, fallbackId: Uuid)
    ensures DecodeActivity(EncodeActivity(a), fallbackId) == Some(a)
  {
    ParseUuidString(a.id);
  }

  /** A stored day reads back as itself. */
  lemma DecodeEncodeDay(d: DayPlan, dayPos: nat, freshId: (nat, nat) -> Uuid)
    ensures DecodeDay(EncodeDay(d), dayPos, freshId) == Some(d)
  {
    var encoded := EncodeDay(d);
    var docs := AsDocuments(encoded["activities"]);
    assert docs.Some?;
    var f := (q: nat, a: Document) => DecodeActivity(a, freshId(dayPos, q));
    forall i | 0 <= i < |docs.value|
      ensures f(i, docs.value[i]) == Some(d.activities[i])
    {
      DecodeEncodeActivity(d.activities[i], freshId(dayPos, i));
    }
    CompactMapAll(docs.value, f, d.activities);
  }

  /** A stored plan reads back as the same days with the same creation date. */
  lemma DecodeEncodePlan(plan: seq<DayPlan>, creationDate: int, freshId: (nat, nat) -> Uuid)
    ensures DecodePlanDocument(PlanDocument(plan, creationDate), freshId) == Some((plan, creationDate))
  {
    var doc := PlanDocument(plan, creationDate);
    var days := AsDocuments(doc["plan"]);
    assert days.Some?;
    var f := (p: nat, d: Document) => DecodeDay(d, p, freshId);
    forall i | 0 <= i < |days.value|
      ensures f(i, days.value[i]) == Some(plan[i])
    {
      DecodeEncodeDay(plan[i], i, freshId);
    }
    CompactMapAll(days.value, f, plan);
  }

  /** An activity dictionary missing any of its seven fields, or naming an
      unknown category, is skipped. */
  lemma IncompleteActivitySkipped(d: Document, fallbackId: Uuid)
    requires !(ACTIVITY_KEYS <= d.Keys) || StringField(d, "category").None? || CategoryFromRaw(StringField(d, "category").value).None?
    ensures DecodeActivity(d, fallbackId) == None
  {
    if !(ACTIVITY_KEYS <= d.Keys) {
      var k :| k in ACTIVITY_KEYS && k !in d;
    }
  }

  /** An unreadable id does not drop the activity: it gets the fresh id. */
  lemma UnreadableIdReplaced(a: Activity, badId: string, fallbackId: Uuid)
    requires ParseUuid(badId).None?
    ensures DecodeActivity(EncodeActivity(a)["id" := StringValue(badId)], fallbackId) == Some(a.(id := fallbackId))
  {
  }
}

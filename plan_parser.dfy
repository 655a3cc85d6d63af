/** `FirestoreManager.parsePlanFromAIResponse`: the best-effort scanner that
    turns a generated plan text into day plans. The text is cut at every
    "Day "; each piece after the first is a day block whose first line must
    read as an integer once punctuation is trimmed from both ends. In the
    block's further lines, a line ending in ':' opens a time slot and a line
    starting with "- " is an activity `Title (N unit): Description`. Anything
    malformed is skipped without a trace. */
module PlanParser {
  import opened Wrappers
  import opened Text
  import opened Uuids
  import opened PlanTypes

  /** What the scanner draws from outside: `ActivityCategory.determineCategory(from:)`,
      and the identifier `UUID()` hands out to the activity built from line
      `l` of day block `b` (both counted from 0, the header being line 0). */
  datatype Env = Env(determineCategory: string -> ActivityCategory, freshId: (nat, nat) -> Uuid)

  const DAY_SEPARATOR: string := "Day "
  const DEFAULT_DURATION: int := 30

  /** The three fields an activity line spells out. */
  datatype ActivityLine = ActivityLine(title: string, content: string, duration: int)

  // ---------------------------------------------------------------------------
  // Reference definitions
  // ---------------------------------------------------------------------------

  /** The duration read from the text after '(': punctuation trimmed, the part
      before the first space read as an integer, 30 when that fails. */
  function DurationOf(inParens: string): int
  {
    match ParseInt(Split(TrimPunctuation(inParens), " ")[0])
    case Some(n) => n
    case None => DEFAULT_DURATION
  }

  /** The text after "- ": exactly two parts around ':', and exactly two parts
      around '(' before it. */
  function ParseActivityText(text: string): Option<ActivityLine>
  {
    var parts := Split(text, ":");
    if |parts| != 2 then None
    else
      var titleDuration := Split(parts[0], "(");
      if |titleDuration| != 2 then None
      else Some(ActivityLine(TrimWhitespace(titleDuration[0]), TrimWhitespace(parts[1]), DurationOf(titleDuration[1])))
  }

  /** A line that opens a time slot. */
  predicate IsSlotLine(line: string)
  {
    HasSuffix(line, ":")
  }

  /** What a body line of a day block yields; the slot test comes first, so a
      "- " line ending in ':' opens a slot. */
  function ActivityLineOf(line: string): Option<ActivityLine>
  {
    if IsSlotLine(line) then None
    else if StartsWith(line, "- ") then ParseActivityText(line[2..])
    else None
  }

  /** The time slot in force after the body lines `lines[1..n]`: the last
      slot line, punctuation trimmed, or "" when none came. */
  function SlotAt(lines: seq<string>, n: nat): string
    requires 1 <= n <= |lines|
  {
    if n == 1 then ""
    else if IsSlotLine(lines[n - 1]) then TrimPunctuation(lines[n - 1])
    else SlotAt(lines, n - 1)
  }

  /** The activity built from body line `l` of day block `b`. */
  function MakeActivity(a: ActivityLine, slot: string, b: nat, l: nat, env: Env): Activity
  {
    Activity(env.freshId(b, l), a.title, a.content, a.duration, env.determineCategory(a.title), false, slot)
  }

  /** The activities read from the body lines `lines[1..n]` of day block `b`. */
  function BlockActivities(lines: seq<string>, n: nat, b: nat, env: Env): seq<Activity>
    requires 1 <= n <= |lines|
  {
    if n == 1 then []
    else
      var before := BlockActivities(lines, n - 1, b, env);
      match ActivityLineOf(lines[n - 1])
      case None => before
      case Some(a) => before + [MakeActivity(a, SlotAt(lines, n - 1), b, n - 1, env)]
  }

  /** The day number a block announces on its first line. */
  function DayHeader(block: string): Option<int>
  {
    ParseInt(TrimPunctuation(Split(block, "\n")[0]))
  }

  /** A block whose first line reads as a day number. */
  predicate HasDayHeader(block: string)
  {
    DayHeader(block).Some?
  }

  /** The day plan of block `b`, whose header reads as a number. */
  function DayPlanOf(block: string, b: nat, env: Env): DayPlan
    requires HasDayHeader(block)
  {
    var lines := Split(block, "\n");
    DayPlan(DayHeader(block).value, BlockActivities(lines, |lines|, b, env))
  }

  /** The day plans of the first `n` blocks, in block order; a block whose
      header does not read as a number is skipped. */
  function PlanOf(blocks: seq<string>, n: nat, env: Env): seq<DayPlan>
    requires n <= |blocks|
  {
    MapKept(blocks, HasDayHeader, (block: string, b: nat) requires HasDayHeader(block) => DayPlanOf(block, b, env), n)
  }

  /** The day blocks: the pieces after each "Day "; the text before the first
      one is not a block. */
  function DayBlocks(response: string): seq<string>
  {
    Split(response, DAY_SEPARATOR)[1..]
  }

  /** What the scanner returns for `response`. */
  function ParsedPlan(response: string, env: Env): seq<DayPlan>
  {
    var blocks := DayBlocks(response);
    PlanOf(blocks, |blocks|, env)
  }

  // ---------------------------------------------------------------------------
  // The scanner
  // ---------------------------------------------------------------------------

  lemma SlotAtStep(lines: seq<string>, n: nat)
    requires 1 <= n < |lines|
    ensures SlotAt(lines, n + 1) == if IsSlotLine(lines[n]) then TrimPunctuation(lines[n]) else SlotAt(lines, n)
  {
  }

  lemma BlockActivitiesStep(lines: seq<string>, n: nat, b: nat, env: Env)
    requires 1 <= n < |lines|
    ensures BlockActivities(lines, n + 1, b, env) == match ActivityLineOf(lines[n])
      case None => BlockActivities(lines, n, b, env)
      case Some(a) => BlockActivities(lines, n, b, env) + [MakeActivity(a, SlotAt(lines, n), b, n, env)]
  {
  }

  /** `parsePlanFromAIResponse(response)`. */
  method ParsePlanFromAIResponse(response: string, env: Env) returns (plans: seq<DayPlan>)
    ensures plans == ParsedPlan(response, env)
  {
    plans := [];
    var dayStrings := Split(response, DAY_SEPARATOR);
    var blocks := dayStrings[1..];
    var b := 0;
    while b < |blocks|
      invariant 0 <= b <= |blocks|
      invariant plans == PlanOf(blocks, b, env)
    {
      var day := ParseDay(blocks[b], b, env);
      if day.Some? {
        plans := plans + [day.value];
      }
      b := b + 1;
    }
  }

  /** One pass of the outer loop: the header line, then the body. */
  method ParseDay(dayString: string, b: nat, env: Env) returns (day: Option<DayPlan>)
    ensures day.Some? <==> HasDayHeader(dayString)
    ensures day.Some? ==> day.value == DayPlanOf(dayString, b, env)
  {
    var dayComponents := Split(dayString, "\n");
    var dayNumber := ParseInt(TrimPunctuation(dayComponents[0]));
    if dayNumber.Some? {
      var activities := ParseDayBody(dayComponents, b, env);
      day := Some(DayPlan(dayNumber.value, activities));
    } else {
      day := None;
    }
  }

  /** The inner loop over the lines after a day header. */
  method ParseDayBody(dayComponents: seq<string>, b: nat, env: Env) returns (activities: seq<Activity>)
    requires |dayComponents| >= 1
    ensures activities == BlockActivities(dayComponents, |dayComponents|, b, env)
  {
    activities := [];
    var currentTimeSlot := "";
    var l := 1;
    while l < |dayComponents|
      invariant 1 <= l <= |dayComponents|
      invariant activities == BlockActivities(dayComponents, l, b, env)
      invariant currentTimeSlot == SlotAt(dayComponents, l)
    {
      var line := dayComponents[l];
      var activity;
      SlotAtStep(dayComponents, l);
      BlockActivitiesStep(dayComponents, l, b, env);
      currentTimeSlot, activity := ParseLine(line, currentTimeSlot, b, l, env);
      if activity.Some? {
        activities := activities + [activity.value];
      }
      l := l + 1;
    }
  }

  /** One pass of the inner loop: line `l` of day block `b`, read with the
      time slot in force before it. */
  method ParseLine(line: string, slot: string, b: nat, l: nat, env: Env) returns (newSlot: string, activity: Option<Activity>)
    ensures newSlot == if IsSlotLine(line) then TrimPunctuation(line) else slot
    ensures ActivityLineOf(line).None? ==> activity == None
    ensures ActivityLineOf(line).Some? ==> activity == Some(MakeActivity(ActivityLineOf(line).value, slot, b, l, env))
  {
    newSlot, activity := slot, None;
    if HasSuffix(line, ":") {
      newSlot := TrimPunctuation(line);
    } else if StartsWith(line, "- ") {
      var activityComponents := Split(line[2..], ":");
      if |activityComponents| == 2 {
        var titleDuration := Split(activityComponents[0], "(");
        if |titleDuration| == 2 {
          var title := TrimWhitespace(titleDuration[0]);
          var durationString := TrimPunctuation(titleDuration[1]);
          var duration := match ParseInt(Split(durationString, " ")[0])
            case Some(n) => n
            case None => DEFAULT_DURATION;
          var content := TrimWhitespace(activityComponents[1]);
          activity := Some(Activity(env.freshId(b, l), title, content, duration,
                                    env.determineCategory(title), false, slot));
        }
      }
    }
  }

  // ---------------------------------------------------------------------------
  // What the scanner promises
  // ---------------------------------------------------------------------------

  /** The positions `l` in `lo..n` whose element is kept, in increasing order. */
  function KeptIndices<T>(xs: seq<T>, keep: T -> bool, lo: nat, n: nat): (ks: seq<nat>)
    requires lo <= n <= |xs|
    ensures forall i, j | 0 <= i < j < |ks| :: ks[i] < ks[j]
    ensures forall i | 0 <= i < |ks| :: lo <= ks[i] < n && keep(xs[ks[i]])
    ensures forall l | lo <= l < n && keep(xs[l]) :: l in ks
    decreases n
  {
    if n == lo then []
    else
      var before := KeptIndices(xs, keep, lo, n - 1);
      if keep(xs[n - 1]) then before + [n - 1] else before
  }

  /** `f` applied to each kept element of `xs[..n]` and its position, in
      order. */
  function MapKept<T, U>(xs: seq<T>, keep: T -> bool, f: (T, nat) --> U, n: nat): seq<U>
    requires n <= |xs|
    requires forall l | 0 <= l < n && keep(xs[l]) :: f.requires(xs[l], l)
  {
    if n == 0 then []
    else
      var before := MapKept(xs, keep, f, n - 1);
      if keep(xs[n - 1]) then before + [f(xs[n - 1], n - 1)] else before
  }

  /** The `k`-th result of `MapKept` comes from the `k`-th kept position. */
  lemma {:induction false} MapKeptFromIndices<T, U>(xs: seq<T>, keep: T -> bool, f: (T, nat) --> U, n: nat)
    requires n <= |xs|
    requires forall l | 0 <= l < n && keep(xs[l]) :: f.requires(xs[l], l)
    ensures |MapKept(xs, keep, f, n)| == |KeptIndices(xs, keep, 0, n)|
    ensures forall k | 0 <= k < |KeptIndices(xs, keep, 0, n)| ::
      MapKept(xs, keep, f, n)[k] == f(xs[KeptIndices(xs, keep, 0, n)[k]], KeptIndices(xs, keep, 0, n)[k])
  {
    if n > 0 {
      MapKeptFromIndices(xs, keep, f, n - 1);
      var ks := KeptIndices(xs, keep, 0, n - 1);
      var ys := MapKept(xs, keep, f, n - 1);
      var ks' := KeptIndices(xs, keep, 0, n);
      var ys' := MapKept(xs, keep, f, n);
      if keep(xs[n - 1]) {
        assert ks' == ks + [n - 1] && ys' == ys + [f(xs[n - 1], n - 1)];
        forall k | 0 <= k < |ks'|
          ensures ys'[k] == f(xs[ks'[k]], ks'[k])
        {
          if k < |ks| {
            assert ys'[k] == ys[k] && ks'[k] == ks[k];
          }
        }
      } else {
        assert ks' == ks && ys' == ys;
      }
    }
  }

  /** A body line that yields an activity. */
  predicate IsActivityLine(line: string)
  {
    ActivityLineOf(line).Some?
  }

  /** `act` is the activity built from body line `l` of day block `b`: its
      fields are those the line spells out, its slot is the one in force
      before the line, its category is inferred from its title, and it is not
      completed. */
  predicate BuiltFromLine(lines: seq<string>, l: int, b: nat, env: Env, act: Activity)
  {
    && 1 <= l < |lines|
    && ActivityLineOf(lines[l]) == Some(ActivityLine(act.title, act.content, act.duration))
    && act.timeSlot == SlotAt(lines, l)
    && act.category == env.determineCategory(act.title)
    && act.id == env.freshId(b, l)
    && !act.isCompleted
  }

  /** A day block yields exactly one activity per well-formed activity line,
      in line order. */
  lemma {:induction false} BlockActivitiesFromLines(lines: seq<string>, n: nat, b: nat, env: Env)
    requires 1 <= n <= |lines|
    ensures |BlockActivities(lines, n, b, env)| == |KeptIndices(lines, IsActivityLine, 1, n)|
    ensures forall i | 0 <= i < |KeptIndices(lines, IsActivityLine, 1, n)| ::
      BuiltFromLine(lines, KeptIndices(lines, IsActivityLine, 1, n)[i], b, env, BlockActivities(lines, n, b, env)[i])
  {
    if n > 1 {
      BlockActivitiesFromLines(lines, n - 1, b, env);
      BlockActivitiesStep(lines, n - 1, b, env);
      var ks := KeptIndices(lines, IsActivityLine, 1, n - 1);
      var acts := BlockActivities(lines, n - 1, b, env);
      if IsActivityLine(lines[n - 1]) {
        assert KeptIndices(lines, IsActivityLine, 1, n) == ks + [n - 1];
        var a := ActivityLineOf(lines[n - 1]).value;
        assert BlockActivities(lines, n, b, env) == acts + [MakeActivity(a, SlotAt(lines, n - 1), b, n - 1, env)];
      } else {
        assert KeptIndices(lines, IsActivityLine, 1, n) == ks;
        assert BlockActivities(lines, n, b, env) == acts;
      }
    }
  }

  /** The plan holds exactly one day per block with a day header, in block
      order. */
  lemma {:induction false} PlanOfFromBlocks(blocks: seq<string>, n: nat, env: Env)
    requires n <= |blocks|
    ensures |PlanOf(blocks, n, env)| == |KeptIndices(blocks, HasDayHeader, 0, n)|
    ensures forall k | 0 <= k < |KeptIndices(blocks, HasDayHeader, 0, n)| ::
      PlanOf(blocks, n, env)[k] == DayPlanOf(blocks[KeptIndices(blocks, HasDayHeader, 0, n)[k]], KeptIndices(blocks, HasDayHeader, 0, n)[k], env)
  {
    MapKeptFromIndices(blocks, HasDayHeader, (block: string, b: nat) requires HasDayHeader(block) => DayPlanOf(block, b, env), n);
  }

  /** The shape of a parsed plan: the `k`-th day comes from the `k`-th block
      with a day header; its number is that header and its activities are
      built one per well-formed activity line of that block, in order. Days
      are neither sorted nor merged by number. */
  lemma ParsedPlanShape(response: string, env: Env)
    ensures var blocks := DayBlocks(response);
            var ks := KeptIndices(blocks, HasDayHeader, 0, |blocks|);
            var plan := ParsedPlan(response, env);
            && |plan| == |ks|
            && forall k | 0 <= k < |ks| ::
                 var lines := Split(blocks[ks[k]], "\n");
                 var ls := KeptIndices(lines, IsActivityLine, 1, |lines|);
                 && plan[k].dayNumber == DayHeader(blocks[ks[k]]).value
                 && |plan[k].activities| == |ls|
                 && forall i | 0 <= i < |ls| :: BuiltFromLine(lines, ls[i], ks[k], env, plan[k].activities[i])
  {
    var blocks := DayBlocks(response);
    var ks := KeptIndices(blocks, HasDayHeader, 0, |blocks|);
    var plan := ParsedPlan(response, env);
    PlanOfFromBlocks(blocks, |blocks|, env);
    forall k | 0 <= k < |ks|
      ensures var lines := Split(blocks[ks[k]], "\n");
              var ls := KeptIndices(lines, IsActivityLine, 1, |lines|);
              && plan[k].dayNumber == DayHeader(blocks[ks[k]]).value
              && |plan[k].activities| == |ls|
              && forall i | 0 <= i < |ls| :: BuiltFromLine(lines, ls[i], ks[k], env, plan[k].activities[i])
    {
      var lines := Split(blocks[ks[k]], "\n");
      BlockActivitiesFromLines(lines, |lines|, ks[k], env);
    }
  }

  /** Every parsed activity starts out not completed. */
  lemma ParsedActivitiesNotCompleted(response: string, env: Env)
    ensures forall p, a | p in ParsedPlan(response, env) && a in p.activities :: !a.isCompleted
  {
    var blocks := DayBlocks(response);
    var ks := KeptIndices(blocks, HasDayHeader, 0, |blocks|);
    var plan := ParsedPlan(response, env);
    ParsedPlanShape(response, env);
    forall p, a | p in plan && a in p.activities
      ensures !a.isCompleted
    {
      var k :| 0 <= k < |plan| && plan[k] == p;
      var i :| 0 <= i < |p.activities| && p.activities[i] == a;
      var lines := Split(blocks[ks[k]], "\n");
      var ls := KeptIndices(lines, IsActivityLine, 1, |lines|);
      assert BuiltFromLine(lines, ls[i], ks[k], env, plan[k].activities[i]);
    }
  }

  lemma {:induction false} SlotAtWithoutSlotLine(lines: seq<string>, n: nat)
    requires 1 <= n <= |lines|
    requires forall k | 1 <= k < n :: !IsSlotLine(lines[k])
    ensures SlotAt(lines, n) == ""
  {
    if n > 1 {
      SlotAtWithoutSlotLine(lines, n - 1);
    }
  }

  lemma {:induction false} SlotAtLastSlotLine(lines: seq<string>, n: nat, k: nat)
    requires 1 <= k < n <= |lines| && IsSlotLine(lines[k])
    requires forall j | k < j < n :: !IsSlotLine(lines[j])
    ensures SlotAt(lines, n) == TrimPunctuation(lines[k])
  {
    if k < n - 1 {
      SlotAtLastSlotLine(lines, n - 1, k);
    }
  }

  /** The slot in force after the body lines `lines[1..n]` is the last slot
      line among them, trimmed of punctuation, and "" when there is none. */
  lemma SlotAtIsLastSlotLine(lines: seq<string>, n: nat)
    requires 1 <= n <= |lines|
    ensures (forall k | 1 <= k < n :: !IsSlotLine(lines[k])) ==> SlotAt(lines, n) == ""
    ensures forall k | 1 <= k < n && IsSlotLine(lines[k]) && (forall j | k < j < n :: !IsSlotLine(lines[j])) ::
      SlotAt(lines, n) == TrimPunctuation(lines[k])
  {
    if forall k | 1 <= k < n :: !IsSlotLine(lines[k]) {
      SlotAtWithoutSlotLine(lines, n);
    }
    forall k | 1 <= k < n && IsSlotLine(lines[k]) && (forall j | k < j < n :: !IsSlotLine(lines[j]))
      ensures SlotAt(lines, n) == TrimPunctuation(lines[k])
    {
      SlotAtLastSlotLine(lines, n, k);
    }
  }

  /** A text without "Day " yields no days. */
  lemma NoDayMarkerNoPlan(response: string, env: Env)
    requires !Contains(response, DAY_SEPARATOR)
    ensures ParsedPlan(response, env) == []
  {
    SplitWithoutOccurrence(response, DAY_SEPARATOR);
  }

  /** Whatever precedes the first "Day " is ignored. */
  lemma PreambleIgnored(preamble: string, rest: string, env: Env)
    requires !Contains(preamble + "Day", DAY_SEPARATOR)
    ensures ParsedPlan(preamble + DAY_SEPARATOR + rest, env) == ParsedPlan(DAY_SEPARATOR + rest, env)
  {
    assert DAY_SEPARATOR[..|DAY_SEPARATOR| - 1] == "Day";
    SplitAfterFirstOccurrence(preamble, DAY_SEPARATOR, rest);
    assert !Contains("Day", DAY_SEPARATOR);
    SplitAfterFirstOccurrence([], DAY_SEPARATOR, rest);
    assert [] + DAY_SEPARATOR + rest == DAY_SEPARATOR + rest;
  }

  /** An activity text is accepted exactly when it holds one ':' and the part
      before that ':' holds one '('. */
  lemma ActivityTextAccepted(text: string)
    ensures ParseActivityText(text).Some? <==>
      CountChar(text, ':') == 1 && CountChar(BeforeFirst(text, ':'), '(') == 1
  {
    SplitCountAndHead(text, ':');
    SplitCountAndHead(BeforeFirst(text, ':'), '(');
  }

  /** The fields of a well-formed activity text `title (duration): content`. */
  lemma ActivityTextFields(title: string, duration: string, content: string)
    requires ':' !in title && '(' !in title && ':' !in duration && '(' !in duration && ':' !in content
    ensures ParseActivityText(title + "(" + duration + ":" + content)
      == Some(ActivityLine(TrimWhitespace(title), TrimWhitespace(content), DurationOf(duration)))
  {
    var text := title + "(" + duration + ":" + content;
    var before := title + "(" + duration;
    assert ':' !in before;
    assert text == before + [':'] + content;
    SplitAfterFirstSeparator(before, ':', content);
    SplitWithoutSeparator(content, ':');
    assert Split(text, ":") == [before, content];
    assert before == title + ['('] + duration;
    SplitAfterFirstSeparator(title, '(', duration);
    SplitWithoutSeparator(duration, '(');
    assert Split(before, "(") == [title, duration];
  }

  predicate IsLetter(c: char)
  {
    'a' <= c <= 'z' || 'A' <= c <= 'Z'
  }

  /** A letter is not trimmed as punctuation. */
  lemma LetterKept(c: char)
    requires IsLetter(c)
    ensures !IsPunctuation(c)
  {
  }

  /** A word that starts with a letter is not a number. */
  lemma WordNotInt(word: string)
    requires word != [] ==> IsLetter(word[0])
    ensures ParseInt(word) == None
  {
  }

  /** A parenthesised text that starts with a letter, such as "(about ten
      minutes)", reads as the default of 30 minutes. */
  lemma DurationOfWord(inParens: string)
    requires inParens != [] && IsLetter(inParens[0])
    ensures DurationOf(inParens) == DEFAULT_DURATION
  {
    var r := TrimPunctuation(inParens);
    var i :| SliceWithDroppedEnds(inParens, r, i, IsPunctuation);
    LetterKept(inParens[0]);
    assert i == 0 && |r| >= 1 && r[0] == inParens[0];
    var parts := Split(r, " ");
    if |parts| > 1 {
      assert r == parts[0] + " " + Join(parts[1..], " ");
    }
    WordNotInt(parts[0]);
  }

  /** A parenthesised text that starts with a non-negative number and a space
      reads as that number, whatever unit and closing punctuation follow. */
  lemma DurationOfNumber(n: int, unit: string)
    requires 0 <= n <= INT_MAX
    ensures DurationOf(IntToString(n) + " " + unit) == n
  {
    var d := IntToString(n);
    var x := d + " " + unit;
    var r := TrimPunctuation(x);
    var i :| SliceWithDroppedEnds(x, r, i, IsPunctuation);
    assert x[0] == d[0] && IsDigit(d[0]);
    assert i == 0;
    assert x[|d|] == ' ';
    assert |r| > |d|;
    var tail := x[|d| + 1..|r|];
    assert r == d + [' '] + tail;
    assert ' ' !in d by {
      assert forall k :: 0 <= k < |d| ==> IsDigit(d[k]);
    }
    SplitAfterFirstSeparator(d, ' ', tail);
    ParseIntToString(n);
  }
}

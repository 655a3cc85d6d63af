/** `OpenAIService.generate14DayPlan` and the helpers behind it: the
    structure check of a generated chunk, the generation of a day range with
    continuation to day 14, and the single structural retry. */
module PlanGeneration {
  import opened Wrappers
  import opened Text
  import opened CompletionClient

  const LAST_DAY: int := 14

  /** The four slot headers every chunk must mention. */
  const SLOT_HEADERS: seq<string> := ["Morning:", "Afternoon:", "Evening:", "Night:"]

  /** The marker of day `d` in a generated text. */
  function DayMarker(d: int): string
  {
    "Day " + IntToString(d) + ":"
  }

  /** `days.map { "Day \($0):" }` for the range `lo...hi`. */
  function DayMarkers(lo: int, hi: int): seq<string>
    requires lo <= hi + 1
  {
    seq(hi - lo + 1, i => DayMarker(lo + i))
  }

  /** `requiredElements`: the day markers of the range, then the slot headers. */
  function RequiredElements(lo: int, hi: int): seq<string>
    requires lo <= hi
  {
    DayMarkers(lo, hi) + SLOT_HEADERS
  }

  /** `requiredElements.allSatisfy { plan.contains($0) }`. */
  function AllContained(text: string, elements: seq<string>): bool
  {
    if elements == [] then true else Contains(text, elements[0]) && AllContained(text, elements[1..])
  }

  /** `validatePartialPlanStructure(text, days: lo...hi)`: the text mentions
      the marker of every day of the range and all four slot headers. */
  function ValidatePartialPlanStructure(text: string, lo: int, hi: int): (valid: bool)
    requires lo <= hi
  {
    AllContained(text, RequiredElements(lo, hi))
  }

  lemma {:induction false} AllContainedMeansEach(text: string, elements: seq<string>)
    ensures AllContained(text, elements) <==> forall i | 0 <= i < |elements| :: Contains(text, elements[i])
  {
    if elements != [] {
      AllContainedMeansEach(text, elements[1..]);
      assert forall i | 1 <= i < |elements| :: elements[i] == elements[1..][i - 1];
    }
  }

  /** Any list of elements followed by the slot headers is all contained
      exactly when each element and each slot header is. */
  lemma AllContainedWithHeaders(text: string, elements: seq<string>)
    ensures AllContained(text, elements + SLOT_HEADERS) <==>
      (forall i | 0 <= i < |elements| :: Contains(text, elements[i]))
      && Contains(text, "Morning:") && Contains(text, "Afternoon:")
      && Contains(text, "Evening:") && Contains(text, "Night:")
  {
    var required := elements + SLOT_HEADERS;
    AllContainedMeansEach(text, required);
    assert forall i | 0 <= i < |elements| :: required[i] == elements[i];
    assert required[|elements|] == "Morning:" && required[|elements| + 1] == "Afternoon:";
    assert required[|elements| + 2] == "Evening:" && required[|elements| + 3] == "Night:";
  }

  /** The markers of a range are all contained exactly when every day of
      the range has its marker in the text. */
  lemma MarkersContained(text: string, lo: int, hi: int)
    requires lo <= hi + 1
    ensures (forall i | 0 <= i < |DayMarkers(lo, hi)| :: Contains(text, DayMarkers(lo, hi)[i])) <==>
      forall d | lo <= d <= hi :: Contains(text, DayMarker(d))
  {
    var markers := DayMarkers(lo, hi);
    if forall i | 0 <= i < |markers| :: Contains(text, markers[i]) {
      forall d | lo <= d <= hi ensures Contains(text, DayMarker(d)) {
        assert markers[d - lo] == DayMarker(d);
      }
    }
    if forall d | lo <= d <= hi :: Contains(text, DayMarker(d)) {
      forall i | 0 <= i < |markers| ensures Contains(text, markers[i]) {
        assert markers[i] == DayMarker(lo + i);
      }
    }
  }

  /** The validator is true exactly when every day marker of the range and
      every slot header occur in the text; a missing slot header fails it
      even when all day markers are present. */
  lemma ValidateMeans(text: string, lo: int, hi: int)
    requires lo <= hi
    ensures ValidatePartialPlanStructure(text, lo, hi) <==>
      (forall d | lo <= d <= hi :: Contains(text, DayMarker(d)))
      && Contains(text, "Morning:") && Contains(text, "Afternoon:")
      && Contains(text, "Evening:") && Contains(text, "Night:")
  {
    AllContainedWithHeaders(text, DayMarkers(lo, hi));
    MarkersContained(text, lo, hi);
  }

  /** Whatever a text contains, any text that starts or ends with it contains
      too, so a valid chunk stays valid inside a longer text. */
  lemma {:induction false} AllContainedInConcatenation(a: string, b: string, elements: seq<string>)
    ensures AllContained(a, elements) ==> AllContained(a + b, elements)
    ensures AllContained(b, elements) ==> AllContained(a + b, elements)
  {
    if elements != [] {
      ContainsInConcatenation(a, b, elements[0]);
      AllContainedInConcatenation(a, b, elements[1..]);
    }
  }

  /** The text between the day list and the caller's prompt. */
  const FORMAT_INSTRUCTIONS: string :=
    ". Each day MUST include morning, afternoon, evening, and night activities. Format the plan as follows:\n\n"
    + "Day X:\nMorning:\n- Activity Title (Duration): Description\nAfternoon:\n- Activity Title (Duration): Description\n"
    + "Evening:\n- Activity Title (Duration): Description\nNight:\n- Activity Title (Duration): Description\n\n"
    + "Additional requirements:\n"

  /** `days.map { "Day \($0)" }.joined(separator: ", ")`. */
  function DaysString(lo: int, hi: int): string
    requires lo <= hi
  {
    Join(seq(hi - lo + 1, i => "Day " + IntToString(lo + i)), ", ")
  }

  /** The enhanced prompt of `generatePartialPlan`: the day list, the format
      instructions, and the caller's prompt last. */
  function EnhancedPrompt(prompt: string, lo: int, hi: int): (r: string)
    requires lo <= hi
    ensures HasSuffix(r, prompt)
  {
    var r := "Generate a detailed wellness plan for the following days: " + DaysString(lo, hi)
      + FORMAT_INSTRUCTIONS + prompt;
    assert r[|r| - |prompt|..] == prompt;
    r
  }

  /** `retryGeneration(prompt:, days: lo...hi)`: one more request with the same
      prompt; a chunk that still fails the check is error 1003. */
  function RetryGeneration(prompt: string, lo: int, hi: int, server: nat -> Reply, start: nat): Outcome
    requires lo <= hi
  {
    var o := ResponseWithRetry(prompt, server, start, MAX_RETRIES);
    match o.result
    case Err(e) => o
    case Ok(chunk) =>
      if ValidatePartialPlanStructure(chunk, lo, hi) then o
      else Outcome(Err(AppError(OPENAI_DOMAIN, 1003, "Failed to generate valid plan structure after retry")), o.sent)
  }

  /** `generatePartialPlan(prompt:, days: lo...hi)`: the enhanced prompt is
      sent, and its outcome handled by `HandleChunk`. */
  function GeneratePartialPlan(prompt: string, lo: int, hi: int, server: nat -> Reply, start: nat): (o: Outcome)
    requires lo <= hi <= LAST_DAY
    ensures o.result.Ok? ==> ValidatePartialPlanStructure(o.result.value, lo, hi)
    decreases LAST_DAY - hi, 1
  {
    var first := ResponseWithRetry(EnhancedPrompt(prompt, lo, hi), server, start, MAX_RETRIES);
    HandleChunk(prompt, lo, hi, first, server, start + |first.sent|)
  }

  /** The completion handler of `generatePartialPlan`, given the outcome
      `first` of the first request and the number `next` of the request after
      it: a valid chunk ending at day 14 is the answer; a valid chunk ending
      earlier is followed, after a blank line, by the generation of the
      remaining days; an invalid chunk gets one retry with the same enhanced
      prompt; a failure is passed on. */
  function HandleChunk(prompt: string, lo: int, hi: int, first: Outcome, server: nat -> Reply, next: nat): (o: Outcome)
    requires lo <= hi <= LAST_DAY
    ensures o.result.Ok? ==> ValidatePartialPlanStructure(o.result.value, lo, hi)
    decreases LAST_DAY - hi, 0
  {
    match first.result
    case Err(e) => first
    case Ok(chunk) =>
      if ValidatePartialPlanStructure(chunk, lo, hi) then
        if hi == LAST_DAY then first
        else
          var later := GeneratePartialPlan(prompt, hi + 1, LAST_DAY, server, next);
          match later.result
          case Ok(rest) =>
            AllContainedInConcatenation(chunk, "\n\n" + rest, RequiredElements(lo, hi));
            assert chunk + "\n\n" + rest == chunk + ("\n\n" + rest);
            After(first.sent, Outcome(Ok(chunk + "\n\n" + rest), later.sent))
          case Err(e) => After(first.sent, later)
      else After(first.sent, RetryGeneration(EnhancedPrompt(prompt, lo, hi), lo, hi, server, next))
  }

  /** `generate14DayPlan(prompt:)`: always the whole range 1...14. */
  function Generate14DayPlan(prompt: string, server: nat -> Reply, start: nat): Outcome
  {
    GeneratePartialPlan(prompt, 1, LAST_DAY, server, start)
  }

  /** A generated plan mentions every day marker from 1 to 14 and every slot
      header: a text missing any of them is never returned. */
  lemma GeneratedPlanIsComplete(prompt: string, server: nat -> Reply, start: nat)
    ensures var o := Generate14DayPlan(prompt, server, start);
            o.result.Ok? ==>
              && (forall d | 1 <= d <= 14 :: Contains(o.result.value, DayMarker(d)))
              && forall h | h in SLOT_HEADERS :: Contains(o.result.value, h)
  {
    var o := Generate14DayPlan(prompt, server, start);
    if o.result.Ok? {
      ValidateMeans(o.result.value, 1, LAST_DAY);
    }
  }

  /** The ways the handler of a chunk for a range ending at day 14 ends: a
      failed request is passed on unchanged, with no structural retry; a valid
      chunk is the answer; an invalid chunk is followed by exactly one more
      `getResponse` with the same enhanced prompt, whose chunk is the answer if
      valid and error 1003 if not. */
  lemma FinalChunkOutcomes(prompt: string, lo: int, hi: int, first: Outcome, server: nat -> Reply, next: nat)
    requires lo <= hi == LAST_DAY
    ensures var o := HandleChunk(prompt, lo, hi, first, server, next);
            && (first.result.Err? ==> o == first)
            && (first.result.Ok? && ValidatePartialPlanStructure(first.result.value, lo, hi) ==> o == first)
            && (first.result.Ok? && !ValidatePartialPlanStructure(first.result.value, lo, hi) ==>
                  var second := ResponseWithRetry(EnhancedPrompt(prompt, lo, hi), server, next, MAX_RETRIES);
                  && o.sent == first.sent + second.sent
                  && (second.result.Err? ==> o.result == second.result)
                  && (second.result.Ok? && ValidatePartialPlanStructure(second.result.value, lo, hi) ==>
                        o.result == second.result)
                  && (second.result.Ok? && !ValidatePartialPlanStructure(second.result.value, lo, hi) ==>
                        o.result == Err(AppError(OPENAI_DOMAIN, 1003, "Failed to generate valid plan structure after retry"))))
  {
  }

  /** `generate14DayPlan` ends in one of those ways, the first request being
      the enhanced prompt for days 1...14. */
  lemma GenerationOutcomes(prompt: string, server: nat -> Reply, start: nat)
    ensures var enhanced := EnhancedPrompt(prompt, 1, LAST_DAY);
            var first := ResponseWithRetry(enhanced, server, start, MAX_RETRIES);
            Generate14DayPlan(prompt, server, start) == HandleChunk(prompt, 1, LAST_DAY, first, server, start + |first.sent|)
  {
    assert Generate14DayPlan(prompt, server, start) == GeneratePartialPlan(prompt, 1, LAST_DAY, server, start);
  }

  /** Handling a chunk for a range ending at day 14 adds at most one more
      `getResponse` with the same enhanced prompt. */
  lemma FinalChunkRequests(prompt: string, lo: int, hi: int, first: Outcome, server: nat -> Reply, next: nat, o: Outcome)
    requires lo <= hi == LAST_DAY
    requires 1 <= |first.sent| <= MAX_RETRIES + 1 && AllSentWith(first.sent, EnhancedPrompt(prompt, lo, hi))
    requires o == HandleChunk(prompt, lo, hi, first, server, next)
    ensures 1 <= |o.sent| <= 2 * (MAX_RETRIES + 1) && AllSentWith(o.sent, EnhancedPrompt(prompt, lo, hi))
  {
    var enhanced := EnhancedPrompt(prompt, lo, hi);
    FinalChunkOutcomes(prompt, lo, hi, first, server, next);
    if first.result.Ok? && !ValidatePartialPlanStructure(first.result.value, lo, hi) {
      var second := ResponseWithRetry(enhanced, server, next, MAX_RETRIES);
      AttemptsBounded(enhanced, server, next, MAX_RETRIES);
      AllSentWithConcat(first.sent, second.sent, enhanced);
    }
  }

  /** The whole-range generation makes at most eight requests, all with the
      enhanced prompt for days 1...14. */
  lemma GenerationRequests(prompt: string, server: nat -> Reply, start: nat)
    ensures var o := Generate14DayPlan(prompt, server, start);
            && 1 <= |o.sent| <= 2 * (MAX_RETRIES + 1)
            && AllSentWith(o.sent, EnhancedPrompt(prompt, 1, LAST_DAY))
  {
    var enhanced := EnhancedPrompt(prompt, 1, LAST_DAY);
    var first := ResponseWithRetry(enhanced, server, start, MAX_RETRIES);
    AttemptsBounded(enhanced, server, start, MAX_RETRIES);
    GenerationOutcomes(prompt, server, start);
    FinalChunkRequests(prompt, 1, LAST_DAY, first, server, start + |first.sent|, Generate14DayPlan(prompt, server, start));
  }

  /** For a range ending before day 14, the retry path returns the retried
      chunk alone: the later days are not generated. */
  lemma RetryPathStopsAtRange(prompt: string, lo: int, hi: int, first: Outcome, server: nat -> Reply, next: nat)
    requires lo <= hi < LAST_DAY
    ensures var second := ResponseWithRetry(EnhancedPrompt(prompt, lo, hi), server, next, MAX_RETRIES);
            first.result.Ok? && !ValidatePartialPlanStructure(first.result.value, lo, hi)
              && second.result.Ok? && ValidatePartialPlanStructure(second.result.value, lo, hi) ==>
                HandleChunk(prompt, lo, hi, first, server, next).result == second.result
  {
  }

  /** A valid chunk for a range ending before day 14 is followed by a blank
      line and the generation of days `hi + 1` to 14; a failure there is the
      result. */
  lemma ContinuationJoinsChunks(prompt: string, lo: int, hi: int, first: Outcome, server: nat -> Reply, next: nat)
    requires lo <= hi < LAST_DAY
    ensures var later := GeneratePartialPlan(prompt, hi + 1, LAST_DAY, server, next);
            var o := HandleChunk(prompt, lo, hi, first, server, next);
            first.result.Ok? && ValidatePartialPlanStructure(first.result.value, lo, hi) ==>
              && o.sent == first.sent + later.sent
              && (later.result.Ok? ==> o.result == Ok(first.result.value + "\n\n" + later.result.value))
              && (later.result.Err? ==> o.result == later.result)
  {
  }
}

# BrightLight core, modelled in Dafny

BrightLight is an iOS wellness app. A user takes a two-week check, a GAD-7
style anxiety block and a PHQ-9 style depression block of five questions
each. The app stores the result in Firestore and asks a chat-completion
endpoint for a 14-day wellness plan shaped by the scores and the user's
activity preferences. It parses the reply into days of activities, stores
the plan, and shows each day's activities by time slot so the user can tick
them off. The home screen shows the day's greeting, the two-week check
status and the plan tile. Once a day the app stores the previous day's top
emotions. The sign-up and sign-in forms gate their buttons on simple
validity checks.

The model covers these parts:

- **Plan generation client** (`CompletionClient`, `PlanGeneration`): the
  chat endpoint, with up to three retries and the error code 1002 for an
  error body. Also the chunked 14-day plan request, its structure check
  (`Day n:` markers and the four slot headers), the one retry with error
  1003, and the joining of continuation chunks.
- **Firestore manager**:
  - `PlanPrompt`: the prompt, including the five best-scored preferences;
  - `PlanParser`: parsing the reply into day plans;
  - `PlanRecord`: the stored plan document and how it is read back;
  - `Firestore`: the manager itself, a class over in-memory collections.
- **Two-week check view** (`TwoWeekCheck`): scores, severity bands,
  summary, reconstruction of answers, and the question flow as a class
  over an answers array.
- **Daily plan view** (`DailyWellnessPlan`): slot grouping and
  `completeActivity`.
- **Home screen** (`Discover`): greeting shortening and rotation, the
  two-week status and the once-a-day greeting gate.
- **Once-a-day emotion gate** (`FirstOpenToday`).
- **Authentication forms** (`AuthForms`).

Supporting modules: `Wrappers` (Option, Result, errors), `Text` (the
Foundation string operations over `seq<char>`), `Uuids` (`uuidString` and
`UUID(uuidString:)`), `PlanTypes` (activities, categories, day plans) and
`Calendar` (day numbers).

**Abstractions.** These parts of the app become explicit parameters:

- **Network and Firestore replies:**
  - a completion endpoint `server: nat -> Reply`, indexed by the global
    request number;
  - read and write errors of Firestore as `Option<Error>` or `bool`;
  - the `UUID()` calls as `freshId`;
  - `ActivityCategory.determineCategory` as a function in `Env`.
- **Time:** dates are whole day numbers; "now" is a parameter.

Swift's `Int` division truncates toward zero, and the model writes that
out. A Swift dictionary's iteration order is unspecified: the model takes
any order (`Firestore.Entries`).

**Where the specification and the code differ, the model follows the
code:**

- A generated plan is accepted when the parse yields exactly 14 entries,
  not 14 distinct day numbers.
- Preferences with equal scores come out of `sorted` in an unspecified
  order. The model uses one admissible order, the stable one.

## Model

| member | source | states |
|---|---|---|
| Text.Split | IOS/BrightLight/BrightLight/Services/FirestoreManager.swift:134-139 | `components(separatedBy:)` always gives at least one component, and joining the components with the separator restores the string |
| Text.SplitJoin | IOS/BrightLight/BrightLight/Services/FirestoreManager.swift:139 | parts free of a one-character separator, joined with it, split back into the same parts |
| Text.SplitWithoutOccurrence | IOS/BrightLight/BrightLight/Services/FirestoreManager.swift:134 | a string without the separator is its own single component |
| Text.SplitAfterFirstOccurrence | IOS/BrightLight/BrightLight/Services/FirestoreManager.swift:134-138 | text before the first `"Day "` is the first component, and the rest splits on its own |
| Text.SplitCountAndHead | IOS/BrightLight/BrightLight/Services/FirestoreManager.swift:154-158 | splitting at a character gives one more component than occurrences, the first being the text before the first occurrence |
| Text.SplitWithoutSeparator | IOS/BrightLight/BrightLight/Services/FirestoreManager.swift:154-158 | a string without the separator character is its own single component |
| Text.SplitAfterFirstSeparator | IOS/BrightLight/BrightLight/Services/FirestoreManager.swift:154-157 | text before the first `:` or `(` is the first component, and the rest splits on its own |
| Text.SplitPartsAvoidSeparator | IOS/BrightLight/BrightLight/Services/FirestoreManager.swift:154-157 | no component contains the separator character |
| Text.ContainsInConcatenation | IOS/BrightLight/BrightLight/Services/OpenAIService.swift:130 | text found in either part is found in the joined text |
| Text.Trim | IOS/BrightLight/BrightLight/Services/FirestoreManager.swift:141 | `trimmingCharacters(in:)` returns a slice whose removed ends are all trimmable and whose own ends are not |
| Text.ParseIntToString | IOS/BrightLight/BrightLight/Services/FirestoreManager.swift:141 | `Int(_:)` reads back every 64-bit integer that interpolation prints |
| Text.ParseInt | IOS/BrightLight/BrightLight/Services/FirestoreManager.swift:141 | a number read by `Int(_:)` fits in 64 bits and was an optionally signed run of digits |
| Text.NatToString | IOS/BrightLight/BrightLight/Services/FirestoreManager.swift:141 | interpolation prints a non-empty run of digits with the number's value |
| Text.NonEmptyOnly | IOS/BrightLight/BrightLight/Views/DiscoverView.swift:204 | the empty runs between spaces are dropped, and every non-empty one is kept |
| Text.Words | IOS/BrightLight/BrightLight/Views/DiscoverView.swift:204 | `split(separator: " ")` gives non-empty words without spaces |
| Text.NonEmptyOnlyKeeps | IOS/BrightLight/BrightLight/Views/DiscoverView.swift:204 | a list with no empty part is kept as it is |
| Text.WordsOfJoin | IOS/BrightLight/BrightLight/Views/DiscoverView.swift:204-206 | non-empty space-free words joined by single spaces split back into the same words |
| Text.JoinExtendsLast | IOS/BrightLight/BrightLight/Views/DiscoverView.swift:206 | text appended to a join lands on the last part |
| Text.LowercasedMeans | IOS/BrightLight/BrightLight/Views/DailyWellnessPlanView.swift:46 | lowering keeps the length, leaves no ASCII capital, changes each character at most by its ASCII case, and lowering twice is lowering once |
| Text.LowercasedEqual | IOS/BrightLight/BrightLight/Views/DailyWellnessPlanView.swift:46 | two strings lower to the same string iff they have the same length and agree character by character up to ASCII case |
| Text.LowerCharEqual | IOS/BrightLight/BrightLight/Views/DailyWellnessPlanView.swift:46 | two characters lower alike iff they are equal up to ASCII case |
| Text.NumberBeforePunctuation | IOS/BrightLight/BrightLight/Services/FirestoreManager.swift:141 | a day number followed by any punctuation, as in `"1："` with a full-width colon, reads as that number once trimmed |
| Text.TrimTrailing | IOS/BrightLight/BrightLight/Services/FirestoreManager.swift:141 | trimming a word whose own ends are kept, followed by trimmable characters, leaves exactly the word |
| Uuids.UuidString | IOS/BrightLight/BrightLight/Services/FirestoreManager.swift:197 | `uuidString` is 36 characters long |
| Uuids.ParseHexOfHex | IOS/BrightLight/BrightLight/Services/FirestoreManager.swift:280 | hexadecimal digits read back as the bytes they print |
| Uuids.HexOfConcat | IOS/BrightLight/BrightLight/Services/FirestoreManager.swift:197 | the hexadecimal form of joined bytes is the join of their forms |
| Uuids.ParseUuidString | IOS/BrightLight/BrightLight/Services/FirestoreManager.swift:280 | `UUID(uuidString:)` reads back every id's `uuidString` |
| PlanTypes.RawValue | IOS/BrightLight/BrightLight/Services/FirestoreManager.swift:272-273 | `ActivityCategory(rawValue:)` reads back each category's raw value |
| CompletionClient.HandleAPIResponse | IOS/BrightLight/BrightLight/Services/OpenAIService.swift:44-58 | an error body gives error 1002 carrying its message; a chat body gives its first choice's content, or `""` without choices; anything else is a decoding error |
| CompletionClient.GetResponse | IOS/BrightLight/BrightLight/Services/OpenAIService.swift:11-69 | the retry loop gives the same result and the same requests as the recursive `getResponseWithRetry` with 3 retries |
| CompletionClient.AllSentWithConcat | IOS/BrightLight/BrightLight/Services/OpenAIService.swift:64 | requests for one prompt, followed by more for it, are all for that prompt |
| CompletionClient.AttemptsBounded | IOS/BrightLight/BrightLight/Services/OpenAIService.swift:60-68 | between 1 and retries + 1 requests are sent, all carrying the same prompt |
| CompletionClient.SuccessIsFirstSuccess | IOS/BrightLight/BrightLight/Services/OpenAIService.swift:34-58 | a success is the answer to the last request sent, and every earlier request failed |
| CompletionClient.FailureIsLastError | IOS/BrightLight/BrightLight/Services/OpenAIService.swift:60-68 | the call fails iff all retries + 1 requests fail, and then it reports the last request's error |
| CompletionClient.RetryScenarios | IOS/BrightLight/BrightLight/Services/OpenAIService.swift:7-13 | four failures give the fourth error; two failures and a success give that success after three requests |
| PlanGeneration.AllContainedMeansEach | IOS/BrightLight/BrightLight/Services/OpenAIService.swift:163 | `allSatisfy { plan.contains($0) }` holds iff every element occurs in the plan |
| PlanGeneration.ValidateMeans | IOS/BrightLight/BrightLight/Services/OpenAIService.swift:161-164 | a chunk is valid iff it holds every day marker of its range and the four slot headers |
| PlanGeneration.AllContainedInConcatenation | IOS/BrightLight/BrightLight/Services/OpenAIService.swift:130 | what a chunk contains, the joined plan contains too |
| PlanGeneration.EnhancedPrompt | IOS/BrightLight/BrightLight/Services/OpenAIService.swift:100-116 | the chunk request ends with the caller's prompt |
| PlanGeneration.GeneratePartialPlan | IOS/BrightLight/BrightLight/Services/OpenAIService.swift:99-144 | a successful chunk result passes the structure check for its range |
| PlanGeneration.HandleChunk | IOS/BrightLight/BrightLight/Services/OpenAIService.swift:118-143 | the handling of a chunk reply only succeeds with text valid for the range |
| PlanGeneration.GeneratedPlanIsComplete | IOS/BrightLight/BrightLight/Services/OpenAIService.swift:88-97 | a successful 14-day plan contains `Day 1:` to `Day 14:` and the four slot headers |
| PlanGeneration.FinalChunkOutcomes | IOS/BrightLight/BrightLight/Services/OpenAIService.swift:121-159 | for the last chunk: errors pass through, a valid reply is returned, an invalid one is retried once with the enhanced prompt, and a second invalid reply gives error 1003 |
| PlanGeneration.GenerationOutcomes | IOS/BrightLight/BrightLight/Services/OpenAIService.swift:88-89 | the 14-day plan is the chunk for days 1 to 14, handled after its first request |
| PlanGeneration.FinalChunkRequests | IOS/BrightLight/BrightLight/Services/OpenAIService.swift:138-159 | the last chunk sends between 1 and 8 requests, all with its enhanced prompt |
| PlanGeneration.GenerationRequests | IOS/BrightLight/BrightLight/Services/OpenAIService.swift:88-97 | generating the plan sends 1 to 8 requests, all for the days 1 to 14 prompt |
| PlanGeneration.RetryPathStopsAtRange | IOS/BrightLight/BrightLight/Services/OpenAIService.swift:137-151 | a chunk that passes only on its retry is returned without requesting later days |
| PlanGeneration.ContinuationJoinsChunks | IOS/BrightLight/BrightLight/Services/OpenAIService.swift:123-135 | a valid early chunk continues with the next days and joins the texts with `"\n\n"`, or passes on their error |
| PlanPrompt.InsertByScorePermutes | IOS/BrightLight/BrightLight/Services/FirestoreManager.swift:96 | inserting one preference adds exactly it |
| PlanPrompt.InsertByScoreAtMost | IOS/BrightLight/BrightLight/Services/FirestoreManager.swift:96 | insertion keeps every score under a common bound |
| PlanPrompt.ConsNonIncreasing | IOS/BrightLight/BrightLight/Services/FirestoreManager.swift:96 | a head at least as high as the rest keeps the order non-increasing |
| PlanPrompt.InsertByScoreSorted | IOS/BrightLight/BrightLight/Services/FirestoreManager.swift:96 | insertion into a non-increasing list keeps it non-increasing |
| PlanPrompt.SortByScoreSorted | IOS/BrightLight/BrightLight/Services/FirestoreManager.swift:96 | `sorted { $0.value > $1.value }` is a permutation in non-increasing score order |
| PlanPrompt.TopPreferences | IOS/BrightLight/BrightLight/Services/FirestoreManager.swift:96 | `prefix(5)` keeps min(5, n) of the preferences, best first, and none left out scores above one kept |
| PlanPrompt.PromptMentionsScores | IOS/BrightLight/BrightLight/Services/FirestoreManager.swift:95-104 | the prompt holds the GAD-7 line, the PHQ-9 line and the line of top preferences |
| PlanParser.ParsePlanFromAIResponse | IOS/BrightLight/BrightLight/Services/FirestoreManager.swift:132-183 | the loop over day strings builds exactly the plan the reference definition gives |
| PlanParser.ParseDayBody | IOS/BrightLight/BrightLight/Services/FirestoreManager.swift:147-175 | the loop over a day's lines builds the activities of the reference definition |
| PlanParser.ParseDay | IOS/BrightLight/BrightLight/Services/FirestoreManager.swift:138-178 | a block yields a day exactly when its first line reads as a number, and then it is that block's reference day plan |
| PlanParser.ParseLine | IOS/BrightLight/BrightLight/Services/FirestoreManager.swift:150-174 | a line ending in `:` becomes the current slot; an accepted activity line gives the activity built from its fields and the current slot; any other line gives nothing |
| PlanParser.KeptIndices | IOS/BrightLight/BrightLight/Services/FirestoreManager.swift:138-143 | the indices kept are increasing, in range, kept by the test, and include every index the test keeps |
| PlanParser.BlockActivitiesFromLines | IOS/BrightLight/BrightLight/Services/FirestoreManager.swift:150-174 | one activity per accepted `"- "` line, in order, each built from its line and the last slot header before it |
| PlanParser.PlanOfFromBlocks | IOS/BrightLight/BrightLight/Services/FirestoreManager.swift:138-178 | one day per block whose first line reads as a day number, in order |
| PlanParser.ParsedPlanShape | IOS/BrightLight/BrightLight/Services/FirestoreManager.swift:132-183 | the parsed plan has one day per readable `"Day "` block, carrying that block's number and an activity per accepted line |
| PlanParser.ParsedActivitiesNotCompleted | IOS/BrightLight/BrightLight/Services/FirestoreManager.swift:170 | no parsed activity starts out completed |
| PlanParser.SlotAtIsLastSlotLine | IOS/BrightLight/BrightLight/Services/FirestoreManager.swift:148-152 | the current slot is the punctuation-trimmed last line ending in `:` before the activity, or `""` when there is none |
| PlanParser.NoDayMarkerNoPlan | IOS/BrightLight/BrightLight/Services/FirestoreManager.swift:134-138 | a reply without `"Day "` parses to no days |
| PlanParser.PreambleIgnored | IOS/BrightLight/BrightLight/Services/FirestoreManager.swift:138 | text before the first `"Day "` does not affect the plan |
| PlanParser.ActivityTextAccepted | IOS/BrightLight/BrightLight/Services/FirestoreManager.swift:154-158 | an activity line is accepted iff it has exactly one `:` and exactly one `(` before it |
| PlanParser.ActivityTextFields | IOS/BrightLight/BrightLight/Services/FirestoreManager.swift:157-163 | a well-formed line gives the trimmed title, the trimmed description and the duration |
| PlanParser.DurationOfNumber | IOS/BrightLight/BrightLight/Services/FirestoreManager.swift:161-162 | `"(n minutes)"` gives the duration n |
| PlanParser.DurationOfWord | IOS/BrightLight/BrightLight/Services/FirestoreManager.swift:161-163 | a duration text starting with a letter falls back to 30 minutes |
| PlanRecord.EncodeActivity | IOS/BrightLight/BrightLight/Services/FirestoreManager.swift:195-204 | a stored activity has exactly its seven fields |
| PlanRecord.EncodeDay | IOS/BrightLight/BrightLight/Services/FirestoreManager.swift:193-206 | a stored day has exactly `dayNumber` and `activities` |
| PlanRecord.EncodePlan | IOS/BrightLight/BrightLight/Services/FirestoreManager.swift:192-207 | one stored dictionary per day, in plan order |
| PlanRecord.PlanDocument | IOS/BrightLight/BrightLight/Services/FirestoreManager.swift:209-212 | the plan document has exactly `creationDate`, a timestamp, and `plan` |
| PlanRecord.AsDocumentsReadsBack | IOS/BrightLight/BrightLight/Services/FirestoreManager.swift:255 | `as? [[String: Any]]` gives back, in order, the dictionaries an array was made of |
| PlanRecord.AsDocumentsRejects | IOS/BrightLight/BrightLight/Services/FirestoreManager.swift:255 | `as? [[String: Any]]` fails on a value that is not an array and on an array with any element that is not a dictionary |
| PlanRecord.CompactMapAll | IOS/BrightLight/BrightLight/Services/FirestoreManager.swift:261 | `compactMap` keeps every element when each one maps to a value |
| PlanRecord.DecodeEncodeActivity | IOS/BrightLight/BrightLight/Services/FirestoreManager.swift:267-287 | a stored activity reads back as itself |
| PlanRecord.DecodeEncodeDay | IOS/BrightLight/BrightLight/Services/FirestoreManager.swift:261-290 | a stored day reads back as itself |
| PlanRecord.DecodeEncodePlan | IOS/BrightLight/BrightLight/Services/FirestoreManager.swift:253-293 | a stored plan reads back as the same days with the same creation date |
| PlanRecord.IncompleteActivitySkipped | IOS/BrightLight/BrightLight/Services/FirestoreManager.swift:268-277 | an activity missing a field or naming an unknown category is dropped |
| PlanRecord.UnreadableIdReplaced | IOS/BrightLight/BrightLight/Services/FirestoreManager.swift:280 | an unreadable id does not drop the activity: it gets a fresh id |
| Firestore.SavedPlanReadsBack | IOS/BrightLight/BrightLight/Services/FirestoreManager.swift:244-293 | fetching a saved plan returns that plan and its creation date |
| Firestore.UpdateKeepsCreationDate | IOS/BrightLight/BrightLight/Services/FirestoreManager.swift:367-390 | an update keeps the stored creation date, and the next fetch gives the new plan with that date |
| Firestore.UpdateDatesUndatedPlan | IOS/BrightLight/BrightLight/Services/FirestoreManager.swift:368 | an update of a document without a timestamp dates it now |
| Firestore.PlanWithAIOutcomes | IOS/BrightLight/BrightLight/Services/FirestoreManager.swift:77-93 | generation errors pass through. A reply succeeds iff it parses to 14 entries, else error 1004. A plan returned has 14 days, no activity completed, and comes from text holding all 14 day markers |
| Firestore.GeneratePlanWithAI | IOS/BrightLight/BrightLight/Services/FirestoreManager.swift:77-93 | the method gives the outcome of the reference definition, parse loop included |
| Firestore.PreferenceScoresMerge | IOS/BrightLight/BrightLight/Services/FirestoreManager.swift:67-72 | merging one numeric score into a document changes the scores read from it at that activity only, to that score |
| Firestore.Entries | IOS/BrightLight/BrightLight/Services/FirestoreManager.swift:96 | the dictionary's entries, each once, in some order |
| Firestore.FirestoreManager.constructor | IOS/BrightLight/BrightLight/Services/FirestoreManager.swift:11-15 | the manager starts with no stored data and no cache |
| Firestore.FirestoreManager.CachePlanLocally | IOS/BrightLight/BrightLight/Services/FirestoreManager.swift:225-231 | the cache holds the plan and its date; nothing stored changes |
| Firestore.FirestoreManager.LoadCachedPlan | IOS/BrightLight/BrightLight/Services/FirestoreManager.swift:234-242 | the cached plan, if any |
| Firestore.FirestoreManager.SavePlanToFirebase | IOS/BrightLight/BrightLight/Services/FirestoreManager.swift:185-223 | an empty plan gives error 400 and nothing changes. A write error changes nothing. Otherwise the user's document becomes the plan dated now, and the plan is cached |
| Firestore.FirestoreManager.FetchCurrentPlan | IOS/BrightLight/BrightLight/Services/FirestoreManager.swift:244-295 | a read error passes through; a missing or malformed document gives 404; otherwise the decoded plan and its creation date |
| Firestore.FirestoreManager.UpdatePlanInFirebase | IOS/BrightLight/BrightLight/Services/FirestoreManager.swift:353-402 | a read error passes through; a missing document gives 404; otherwise the document is rewritten with the old creation date, unless the write fails |
| Firestore.FirestoreManager.FetchUserPreferences | IOS/BrightLight/BrightLight/Services/FirestoreManager.swift:63-75 | the stored scores as entries, or none when the read fails or there is no document |
| Firestore.FirestoreManager.UpdatePreferenceScores | IOS/BrightLight/BrightLight/Services/FirestoreManager.swift:341-351 | a merge write sets one activity's score and keeps the others, so the next preferences read gives the old scores with that one replaced |
| Firestore.FirestoreManager.FetchLatestTwoWeekCheck | IOS/BrightLight/BrightLight/Services/FirestoreManager.swift:298-325 | nothing for an empty user id, a failed read or no records; otherwise a record with the latest date |
| Firestore.FirestoreManager.StoreTwoWeekCheckAndGeneratePlan | IOS/BrightLight/BrightLight/Services/FirestoreManager.swift:17-39 | an empty user id gives error 1, and an add error is passed on; both send nothing and write nothing. Otherwise the check record is appended and the plan chain ends as `GenerateAndStorePlan` states |
| Firestore.FirestoreManager.GenerateAndStorePlan | IOS/BrightLight/BrightLight/Services/FirestoreManager.swift:41-61 | for the stored preferences in some order, the requests sent are those of `generatePlanWithAI`. Its error is the error, with nothing written. Given a plan, the save's error is the error: with one nothing changes, without one the plan is stored and cached dated now. Check records and scores are never touched |
| Firestore.SavedOutcomeMeans | IOS/BrightLight/BrightLight/Services/FirestoreManager.swift:41-61 | an error leaves the plans and cache unchanged; no error means a 14-day plan is cached dated now and fetches back from the store with that date |
| TwoWeekCheck.SeverityBands | IOS/BrightLight/BrightLight/Views/TwoWeekCheckView.swift:234-254 | bands 0-5, 6-10, 11-15 and 16-20 with exact edges, monotone in the score, and "Unknown" exactly outside 0 to 20 |
| TwoWeekCheck.SumOfFive | IOS/BrightLight/BrightLight/Views/TwoWeekCheckView.swift:235 | `reduce(0, +)` over five answers is their sum |
| TwoWeekCheck.SumOfAnswered | IOS/BrightLight/BrightLight/Views/TwoWeekCheckView.swift:95-97 | answers of 1 to 4 sum to between n and 4n |
| TwoWeekCheck.AnsweredLevelsKnown | IOS/BrightLight/BrightLight/Views/TwoWeekCheckView.swift:234-254 | a fully answered check scores 5 to 20 on each block, so neither level is "Unknown" |
| TwoWeekCheck.SummaryByBands | IOS/BrightLight/BrightLight/Views/TwoWeekCheckView.swift:256-290 | the summary depends only on the two bands; an unknown band contributes nothing around the `"\n\n"` |
| TwoWeekCheck.ReconstructedAnswer | IOS/BrightLight/BrightLight/Views/TwoWeekCheckView.swift:224 | each reconstructed answer is between 1 and 4 |
| TwoWeekCheck.Reconstructed | IOS/BrightLight/BrightLight/Views/TwoWeekCheckView.swift:220-232 | ten reconstructed answers, all answered |
| TwoWeekCheck.ReconstructAnswers | IOS/BrightLight/BrightLight/Views/TwoWeekCheckView.swift:220-232 | the two loops fill a new array with the reference answers |
| TwoWeekCheck.ReconstructionChangesLevel | IOS/BrightLight/BrightLight/Views/TwoWeekCheckView.swift:220-232 | a check scoring 7 and 7 ("Mild") is shown again as 5 and 5 ("Minimal") |
| TwoWeekCheck.BalancedAnswers | IOS/BrightLight/BrightLight/Views/TwoWeekCheckView.swift:220-232 | five answers of 1 to 4 summing to any score from 5 to 20 |
| TwoWeekCheck.BalancedReconstructed | IOS/BrightLight/BrightLight/Views/TwoWeekCheckView.swift:220-232 | ten answered answers for a stored pair of scores |
| TwoWeekCheck.BalancedKeepsLevels | IOS/BrightLight/BrightLight/Views/TwoWeekCheckView.swift:207-209 | the corrected reconstruction shows the stored scores, levels and summary again |
| TwoWeekCheck.TwoWeekCheckView.constructor | IOS/BrightLight/BrightLight/Views/TwoWeekCheckView.swift:6-15 | ten unanswered questions, the first one current, the introduction showing |
| TwoWeekCheck.TwoWeekCheckView.StartQuestions | IOS/BrightLight/BrightLight/Views/TwoWeekCheckView.swift:73-75 | leaving the introduction shows the questions, unless the summary is already showing; nothing else changes |
| TwoWeekCheck.TwoWeekCheckView.SelectAnswer | IOS/BrightLight/BrightLight/Views/TwoWeekCheckView.swift:175-177 | only the current question's answer changes |
| TwoWeekCheck.TwoWeekCheckView.PreviousQuestion | IOS/BrightLight/BrightLight/Views/TwoWeekCheckView.swift:147-152 | steps back one question and selects its answer; at the first question nothing moves |
| TwoWeekCheck.TwoWeekCheckView.SaveResults | IOS/BrightLight/BrightLight/Views/TwoWeekCheckView.swift:292-309 | with a user id, one submission with the two scores and levels; without one, none |
| TwoWeekCheck.TwoWeekCheckView.NextQuestion | IOS/BrightLight/BrightLight/Views/TwoWeekCheckView.swift:179-186 | moves on; at the last question it submits and the summary screen shows. Every question is then answered and no submitted level is "Unknown" |
| TwoWeekCheck.TwoWeekCheckView.SaveCompleted | IOS/BrightLight/BrightLight/Views/TwoWeekCheckView.swift:310-324 | an error raises the alert with its message; success marks the check completed and shows the summary, leaving the alert and its message as they were; no other field changes |
| TwoWeekCheck.TwoWeekCheckView.OnAppear | IOS/BrightLight/BrightLight/Views/TwoWeekCheckView.swift:41-48 | with a user: a check under 14 days old is shown again on the summary screen from reconstructed answers, leaving the introduction flag as it was; otherwise the introduction screen shows unless a summary is already up. Without a user nothing changes |
| DailyWellnessPlan.FirstIndexOf | IOS/BrightLight/BrightLight/Views/DailyWellnessPlanView.swift:99 | `firstIndex(where:)` gives the first activity with the id, or none when no activity has it |
| DailyWellnessPlan.ToggleFlipsFirstMatch | IOS/BrightLight/BrightLight/Views/DailyWellnessPlanView.swift:99-101 | completing flips only that activity's completion flag; every other activity and field stays |
| DailyWellnessPlan.ToggleWithoutMatch | IOS/BrightLight/BrightLight/Views/DailyWellnessPlanView.swift:99 | without a matching activity the day is unchanged |
| DailyWellnessPlan.ToggleTwiceRestores | IOS/BrightLight/BrightLight/Views/DailyWellnessPlanView.swift:98-101 | completing the same activity twice restores the day |
| DailyWellnessPlan.SlotActivities | IOS/BrightLight/BrightLight/Views/DailyWellnessPlanView.swift:46 | the slot's activities are exactly those whose slot matches regardless of case, each as often as in the plan |
| DailyWellnessPlan.SlotActivitiesOfOne | IOS/BrightLight/BrightLight/Views/DailyWellnessPlanView.swift:46 | one activity is kept exactly when its slot matches |
| DailyWellnessPlan.SlotActivitiesOfJoin | IOS/BrightLight/BrightLight/Views/DailyWellnessPlanView.swift:46 | the slot's activities of a joined list are those of the first part followed by those of the second, so plan order is kept |
| DailyWellnessPlan.FilteredKeeps | IOS/BrightLight/BrightLight/Views/DailyWellnessPlanView.swift:46 | `filter` keeps exactly the elements that pass its test, each as often as it occurs, and never lengthens the list |
| DailyWellnessPlan.SectionsFor | IOS/BrightLight/BrightLight/Views/DailyWellnessPlanView.swift:45-48 | every section is a listed slot with its non-empty activities, and every non-empty slot has a section |
| DailyWellnessPlan.SectionsInSlotOrder | IOS/BrightLight/BrightLight/Views/DailyWellnessPlanView.swift:11 | sections follow the order Morning, Afternoon, Evening, Night |
| DailyWellnessPlan.SubsequenceDropHead | IOS/BrightLight/BrightLight/Views/DailyWellnessPlanView.swift:45 | a subsequence of the slots stays one when a slot is put in front |
| DailyWellnessPlan.SubsequenceTail | IOS/BrightLight/BrightLight/Views/DailyWellnessPlanView.swift:45 | dropping a section header keeps the headers a subsequence |
| DailyWellnessPlan.ListedFor | IOS/BrightLight/BrightLight/Views/DailyWellnessPlanView.swift:45-48 | an activity is shown under some section exactly when it is in the day and its slot matches a listed slot regardless of case |
| DailyWellnessPlan.ShownActivities | IOS/BrightLight/BrightLight/Views/DailyWellnessPlanView.swift:11-48 | an activity is shown iff it is in the day and its slot matches one of Morning, Afternoon, Evening, Night regardless of case; any other slot never shows |
| DailyWellnessPlan.SlotCaseIgnored | IOS/BrightLight/BrightLight/Views/DailyWellnessPlanView.swift:46 | an activity lands under a slot iff its slot name has the same length and matches it letter by letter up to ASCII case |
| DailyWellnessPlan.FirstIndexIsUnique | IOS/BrightLight/BrightLight/Views/DailyWellnessPlanView.swift:99 | the first index holding the id is the one found |
| DailyWellnessPlan.DailyWellnessPlanView.constructor | IOS/BrightLight/BrightLight/Views/DailyWellnessPlanView.swift:6-9 | no day loaded and no popup |
| DailyWellnessPlan.DailyWellnessPlanView.VisibleSections | IOS/BrightLight/BrightLight/Views/DailyWellnessPlanView.swift:25-56 | nothing is listed while loading or without a day, otherwise the day's sections |
| DailyWellnessPlan.DailyWellnessPlanView.FindActivity | IOS/BrightLight/BrightLight/Views/DailyWellnessPlanView.swift:99 | the search loop finds the first activity with the id |
| DailyWellnessPlan.DailyWellnessPlanView.CompleteActivity | IOS/BrightLight/BrightLight/Views/DailyWellnessPlanView.swift:98-120 | the day becomes the toggled day. When the view model reports completion, "Well done! 😉+1" pops up. A reload is scheduled. Without a match nothing happens |
| Discover.LongGreetingShortened | IOS/BrightLight/BrightLight/Views/DiscoverView.swift:203-210 | a greeting over 14 words keeps its first 14 words in order and ends in `"..."`, which joins the last kept word |
| Discover.ShorteningIdempotent | IOS/BrightLight/BrightLight/Views/DiscoverView.swift:203-210 | shortening a shortened greeting changes nothing |
| Discover.TapStep | IOS/BrightLight/BrightLight/Views/DiscoverView.swift:50 | a tap moves to the next greeting, from the last back to the first |
| Discover.AfterTapsRotates | IOS/BrightLight/BrightLight/Views/DiscoverView.swift:50 | up to `count` taps move the index that many places, wrapping at most once |
| Discover.TapsCycle | IOS/BrightLight/BrightLight/Views/DiscoverView.swift:50 | `count` taps return to the start and show no greeting twice on the way |
| Discover.StatusAgreesWithCheckView | IOS/BrightLight/BrightLight/Views/DiscoverView.swift:217-232 | the home screen says "Complete" exactly when the check view would show the previous results |
| Discover.PlanTileLabelDistinguishes | IOS/BrightLight/BrightLight/Views/DiscoverView.swift:116 | "Check Now" differs from every "Day n" label, and a day label reads back as its day number |
| Discover.DiscoverView.constructor | IOS/BrightLight/BrightLight/Views/DiscoverView.swift:7-19 | no greetings, status "Due", nothing loaded, the stored launch date kept |
| Discover.DiscoverView.TapGreeting | IOS/BrightLight/BrightLight/Views/DiscoverView.swift:41-52 | the index moves to `(i + 1) % count`, the bubble shows the next greeting shortened, and the recorded flag follows it; without a bubble nothing changes |
| Discover.DiscoverView.ReceiveGreetings | IOS/BrightLight/BrightLight/Views/DiscoverView.swift:187-193 | new greetings show from the first one, shortened in the bubble; an empty list shows no bubble |
| Discover.DiscoverView.CheckFirstLaunchAndFetchGreeting | IOS/BrightLight/BrightLight/Views/DiscoverView.swift:168-181 | the first launch of a day fetches greetings and stores today; later launches that day do nothing |
| Discover.DiscoverView.CheckTwoWeekStatus | IOS/BrightLight/BrightLight/Views/DiscoverView.swift:217-232 | "Due" without a check or after 14 days or more, otherwise "Complete" |
| Discover.DiscoverView.SetTwoWeekCheckCompleted | IOS/BrightLight/BrightLight/Views/DiscoverView.swift:160-165 | completing the check marks the status "Complete" and the flag returns to false |
| Discover.DiscoverView.OnAppear | IOS/BrightLight/BrightLight/Views/DiscoverView.swift:140-151 | with a user, the status is set, the greeting gate runs and the screen loads; without one nothing changes |
| FirstOpenToday.GateOutcomes | IOS/BrightLight/BrightLight/Utilities/CheckFirstOpenToday.swift:14-56 | with no user, or a marker already at today, nothing happens. Otherwise the marker moves to today and only a non-empty list is stored. The emotions are cleared unless a store is pending |
| FirstOpenToday.GateOncePerDay | IOS/BrightLight/BrightLight/Utilities/CheckFirstOpenToday.swift:18-36 | a second opening the same day does nothing |
| FirstOpenToday.GateRun | IOS/BrightLight/BrightLight/Utilities/CheckFirstOpenToday.swift:21-52 | over any run of openings, only non-empty lists are stored, at most one per opening |
| FirstOpenToday.CheckFirstOpenToday.constructor | IOS/BrightLight/BrightLight/Utilities/CheckFirstOpenToday.swift:5-7 | the stored marker and emotions as found, nothing stored yet |
| FirstOpenToday.CheckFirstOpenToday.StoreOrClear | IOS/BrightLight/BrightLight/Utilities/CheckFirstOpenToday.swift:20-32 | a non-empty list is stored and then cleared when the store completes; an empty one is just cleared |
| FirstOpenToday.CheckFirstOpenToday.CheckAndStoreDailyEmotionsIfNeeded | IOS/BrightLight/BrightLight/Utilities/CheckFirstOpenToday.swift:9-57 | the method's effect is the gate's |
| AuthForms.RegistrationValidMeans | IOS/BrightLight/BrightLight/Views/RegistrationView.swift:110-117 | a valid sign-up form has a password of six or more Unicode scalars typed twice alike, shows the checkmark, and passes the sign-in check |
| AuthForms.IndicatorMeans | IOS/BrightLight/BrightLight/Views/RegistrationView.swift:41-53 | the indicator shows iff both fields hold text, and shows the checkmark iff they agree |
| AuthForms.SignInEmptinessTestsRedundant | IOS/BrightLight/BrightLight/Views/SignInEmailView.swift:66-68 | sign-in validity is just "email holds @ and password has six or more Unicode scalars" |
| AuthForms.RegistrationExtendsSignIn | IOS/BrightLight/BrightLight/Views/RegistrationView.swift:110-117 | sign-up validity is sign-in validity plus matching confirmation and a non-empty full name |

## Left out

- Firestore, Firebase Auth, the HTTP client and `UserDefaults` are not modelled as code. Their replies are parameters, and the stored collections and the cache are fields of the manager class.
- Callbacks and `DispatchQueue` delays run as sequential calls. The 1-second retry delay, the popup's 2-second hide and the 0.5-second reload are left out.
- `Firestore.FirestoreManager.SavePlanToFirebase`: one `now` stands for both `Date()` calls, the document's date and the cache's date.
- `Firestore.FirestoreManager.CachePlanLocally`: JSON encoding and decoding of the cached plan is taken as lossless, and an encoding failure is not modelled.
- `PlanPrompt.PreferenceText`: preference scores are whole numbers, so `%.1f` always prints `.0`. Floating-point scores, `dailyScore` and emotion values are not modelled.
- `PlanPrompt.CreatePrompt`: the fixed prose of the prompt is abbreviated to its opening and first guidance sentence.
- `Firestore.FirestoreManager.FetchLatestTwoWeekCheck`: when several records share the latest date, the query's choice among them is not modelled; the model returns the first one.
- `ActivityCategory.determineCategory` is a parameter, because its source is not part of this model.
- `WellnessPlanViewModel` and `ChatViewModel` are not part of this model. They cover plan loading, the toggle in Firestore, the current day and greetings. Their answers are parameters.
- `storeDailyEmotions` and `fetchLatestSummary` (FirestoreManager.swift:404-438) are left out. They only pass emotion data through to Firestore.
- The random loading messages and the loading animation of the daily plan view are left out, since they are randomness and timing.
- The face image and daily score on the home screen are left out, since they are floating point.
- The cache in the completion client is left out. It is written but never read.
- `EmotionAnalysisService`, `StorageManager` (AES-GCM), `APIClient` and the purely visual SwiftUI views are not part of this model.
- Text: strings are modelled as sequences of Unicode scalars, where Swift's `String` is a sequence of grapheme clusters compared under canonical equivalence. Lengths, equality, prefix tests and word splits therefore differ from Swift on characters built from several scalars: "e\u{301}" and "\u{E9}" are equal in Swift but not here, and a line starting with a combining mark after "- " passes the model's prefix test but not Swift's `starts(with:)`.
- AuthForms.RegistrationFormIsValid: `password.count` counts grapheme clusters, the model counts scalars, so a password of three skin-toned emoji (six scalars) is too short in Swift but long enough here. The same holds for AuthForms.SignInFormIsValid.
- Text.IsPunctuation: covers ASCII, Latin-1, General Punctuation, CJK Symbols and Punctuation and the full-width forms. Punctuation of other scripts, which Foundation's `.punctuationCharacters` also trims, is kept.
- Text.Lowercased: lowers ASCII `A`–`Z` only, where Swift's `lowercased()` lowers all of Unicode. The four slot names are ASCII, so only a slot written with non-ASCII capitals is compared differently.
- `TwoWeekCheck.TwoWeekCheckView.OnAppear`: a check date dated after today counts as recent, as `dateComponents` gives a negative difference.

## Findings

| source | as written | input that shows it | evidently intended | confidence | as-written member | corrected member |
|---|---|---|---|---|---|---|
| IOS/BrightLight/BrightLight/Views/TwoWeekCheckView.swift:220-232 | `reconstructAnswers` sets all five answers of a block to `min(4, max(1, score / 5))`, so showing a recent check again can lower its score and level | a check answered `[2,2,1,1,1,2,2,1,1,1]` stores 7 and 7 ("Mild Anxiety", "Mild Depression"); it is shown again as 5 and 5 ("Minimal Anxiety", "Minimal Depression") | the answers shown again sum to the stored scores, so the levels and summary match what was saved | not executed | TwoWeekCheck.ReconstructionChangesLevel | TwoWeekCheck.BalancedKeepsLevels |

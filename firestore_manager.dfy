/** `FirestoreManager`: the user documents the app keeps in Firestore, held
    here in memory, and the plan pipeline that fills them. The outcome of
    every read or write the database could fail is a parameter; the clock
    reading `Date()` is the parameter `now`. */
module Firestore {
  import opened Wrappers
  import opened Text
  import opened Uuids
  import opened PlanTypes
  import opened PlanRecord
  import opened PlanParser
  import opened CompletionClient
  import opened PlanGeneration
  import opened PlanPrompt

  /** The number of day plans a generated plan must have. */
  const PLAN_LENGTH: nat := 14

  const EMPTY_USER_ID: Error := AppError(FIRESTORE_DOMAIN, 1, "User ID is empty")
  const EMPTY_PLAN: Error := AppError(FIRESTORE_DOMAIN, 400, "Plan is empty")
  const PLAN_NOT_FOUND: Error := AppError(FIRESTORE_DOMAIN, 404, "Plan not found")
  const WRONG_PLAN_LENGTH: Error := AppError(FIRESTORE_DOMAIN, 1004, "Generated plan does not have 14 days")

  /** A document of `twoweek_check_records`, as `storeTwoWeekCheckAndGeneratePlan`
      writes it. */
  datatype CheckRecord = CheckRecord(date: int, gadScore: int, gadScoreLevel: string, phqScore: int, phqScoreLevel: string)

  /** What `generatePlanWithAI` hands its completion handler, with the prompts
      of all the requests it made. */
  datatype PlanOutcome = PlanOutcome(result: Result<seq<DayPlan>, Error>, sent: seq<string>)

  // ---------------------------------------------------------------------------
  // Reading and updating the stored plan
  // ---------------------------------------------------------------------------

  /** The completion of `fetchCurrentPlan` given the stored document, if any:
      a read error is passed on; a missing document, or one whose `plan` is
      not an array of dictionaries or whose `creationDate` is not a
      timestamp, is error 404; otherwise the days that decode and the
      creation date. */
  function StoredPlan(stored: Option<Document>, readError: Option<Error>, freshId: (nat, nat) -> Uuid): Result<(seq<DayPlan>, int), Error>
  {
    if readError.Some? then Err(readError.value)
    else if stored.None? then Err(PLAN_NOT_FOUND)
    else match DecodePlanDocument(stored.value, freshId)
      case None => Err(PLAN_NOT_FOUND)
      case Some(found) => Ok(found)
  }

  /** The creation date `updatePlanInFirebase` writes: the stored one when it
      is a timestamp, else `now`. */
  function KeptCreationDate(existing: Document, now: int): int
  {
    if "creationDate" in existing && existing["creationDate"].TimestampValue? then existing["creationDate"].t else now
  }

  /** The document `updatePlanInFirebase` writes over `existing`. */
  function UpdatedDocument(existing: Document, plan: seq<DayPlan>, now: int): Document
  {
    PlanDocument(plan, KeptCreationDate(existing, now))
  }

  /** A saved plan is fetched back with its creation date. */
  lemma SavedPlanReadsBack(plan: seq<DayPlan>, creationDate: int, freshId: (nat, nat) -> Uuid)
    ensures StoredPlan(Some(PlanDocument(plan, creationDate)), None, freshId) == Ok((plan, creationDate))
  {
    DecodeEncodePlan(plan, creationDate, freshId);
  }

  /** Updating a saved plan replaces its days and keeps its creation date:
      what is fetched afterwards is the new plan with the date of the first
      save, whenever the update happens. */
  lemma UpdateKeepsCreationDate(saved: seq<DayPlan>, creationDate: int, plan: seq<DayPlan>, now: int, freshId: (nat, nat) -> Uuid)
    ensures UpdatedDocument(PlanDocument(saved, creationDate), plan, now) == PlanDocument(plan, creationDate)
    ensures StoredPlan(Some(UpdatedDocument(PlanDocument(saved, creationDate), plan, now)), None, freshId) == Ok((plan, creationDate))
  {
    SavedPlanReadsBack(plan, creationDate, freshId);
  }

  /** A stored plan without a timestamped creation date takes `now` on
      update. */
  lemma UpdateDatesUndatedPlan(existing: Document, plan: seq<DayPlan>, now: int, freshId: (nat, nat) -> Uuid)
    requires "creationDate" !in existing || !existing["creationDate"].TimestampValue?
    ensures StoredPlan(Some(UpdatedDocument(existing, plan, now)), None, freshId) == Ok((plan, now))
  {
    SavedPlanReadsBack(plan, now, freshId);
  }

  // ---------------------------------------------------------------------------
  // Generating a plan
  // ---------------------------------------------------------------------------

  /** The plan in a generated text, when it has exactly 14 entries. Entries
      are counted, not distinct day numbers. */
  function CheckedPlan(response: string, env: Env): Result<seq<DayPlan>, Error>
  {
    var plan := ParsedPlan(response, env);
    if |plan| == PLAN_LENGTH then Ok(plan) else Err(WRONG_PLAN_LENGTH)
  }

  /** `generatePlanWithAI`: the prompt built from the scores and preferences
      is sent to `generate14DayPlan`; a failure is passed on, a text is parsed
      and checked. */
  function PlanWithAI(gadScore: int, phqScore: int, preferences: seq<Preference>, server: nat -> Reply, start: nat, env: Env): PlanOutcome
  {
    var o := Generate14DayPlan(CreatePrompt(gadScore, phqScore, preferences), server, start);
    match o.result
    case Ok(response) => PlanOutcome(CheckedPlan(response, env), o.sent)
    case Err(e) => PlanOutcome(Err(e), o.sent)
  }

  /** A plan handed back by `generatePlanWithAI` has 14 days. */
  lemma PlanWithAILength(gadScore: int, phqScore: int, preferences: seq<Preference>, server: nat -> Reply, start: nat, env: Env)
    ensures var o := PlanWithAI(gadScore, phqScore, preferences, server, start, env);
            o.result.Ok? ==> |o.result.value| == PLAN_LENGTH
  {
  }

  /** The ways `generatePlanWithAI` ends: a generation failure is passed on
      unchanged; a generated text succeeds exactly when it parses into 14
      day plans, and fails with 1004 otherwise. A plan handed back has 14
      days, none of whose activities is completed, and comes from a text
      naming every day from 1 to 14 and every slot header. */
  lemma PlanWithAIOutcomes(gadScore: int, phqScore: int, preferences: seq<Preference>, server: nat -> Reply, start: nat, env: Env)
    ensures var g := Generate14DayPlan(CreatePrompt(gadScore, phqScore, preferences), server, start);
            var o := PlanWithAI(gadScore, phqScore, preferences, server, start, env);
            && o.sent == g.sent
            && (g.result.Err? ==> o.result == Err(g.result.error))
            && (g.result.Ok? ==> (o.result.Ok? <==> |ParsedPlan(g.result.value, env)| == PLAN_LENGTH))
            && (g.result.Ok? && o.result.Err? ==> o.result.error == WRONG_PLAN_LENGTH)
            && (o.result.Ok? ==>
                  && g.result.Ok?
                  && o.result.value == ParsedPlan(g.result.value, env)
                  && |o.result.value| == PLAN_LENGTH
                  && (forall p, a | p in o.result.value && a in p.activities :: !a.isCompleted)
                  && (forall d | 1 <= d <= 14 :: Contains(g.result.value, DayMarker(d))))
  {
    var prompt := CreatePrompt(gadScore, phqScore, preferences);
    var g := Generate14DayPlan(prompt, server, start);
    GeneratedPlanIsComplete(prompt, server, start);
    if g.result.Ok? {
      ParsedActivitiesNotCompleted(g.result.value, env);
    }
  }

  /** `generatePlanWithAI(gadScore:phqScore:preferences:)`. */
  method GeneratePlanWithAI(gadScore: int, phqScore: int, preferences: seq<Preference>, server: nat -> Reply, start: nat, env: Env)
    returns (result: Result<seq<DayPlan>, Error>, sent: seq<string>)
    ensures PlanOutcome(result, sent) == PlanWithAI(gadScore, phqScore, preferences, server, start, env)
  {
    var prompt := CreatePrompt(gadScore, phqScore, preferences);
    var generated := Generate14DayPlan(prompt, server, start);
    sent := generated.sent;
    match generated.result {
      case Ok(response) =>
        var plan := ParsePlanFromAIResponse(response, env);
        if |plan| == PLAN_LENGTH {
          result := Ok(plan);
        } else {
          result := Err(WRONG_PLAN_LENGTH);
        }
      case Err(e) =>
        result := Err(e);
    }
  }

  // ---------------------------------------------------------------------------
  // Preferences
  // ---------------------------------------------------------------------------

  /** `data.mapValues { $0 as? Double ?? 0.0 }`: a value that is not a number
      counts as 0. */
  function PreferenceScores(doc: Document): map<string, int>
  {
    map k | k in doc :: if doc[k].IntValue? then doc[k].i else 0
  }

  /** Merging one score into a preferences document changes the scores read
      from it at that activity only, to that score. */
  lemma PreferenceScoresMerge(doc: Document, activity: string, score: int)
    ensures PreferenceScores(doc[activity := IntValue(score)]) == PreferenceScores(doc)[activity := score]
  {
    var merged := PreferenceScores(doc[activity := IntValue(score)]);
    var expected := PreferenceScores(doc)[activity := score];
    assert merged.Keys == expected.Keys;
    forall k | k in merged ensures merged[k] == expected[k] {
    }
  }

  /** `ps` lists the entries of `m`, each key once, in some order. */
  predicate IsEntriesOf(ps: seq<Preference>, m: map<string, int>)
  {
    && (forall i | 0 <= i < |ps| :: ps[i].0 in m && m[ps[i].0] == ps[i].1)
    && (forall i, j | 0 <= i < j < |ps| :: ps[i].0 != ps[j].0)
    && (forall k | k in m :: exists i | 0 <= i < |ps| :: ps[i].0 == k)
  }

  /** The part of the store the plan chain writes: the stored plans and the
      cached plan with its creation date. */
  datatype PlanState = PlanState(plans: map<string, Document>, cachedPlan: Option<seq<DayPlan>>, cachedCreationDate: Option<int>)

  /** How `generateAndStorePlan` ends once `generatePlanWithAI` has given
      `o`: the requests are those of the generation; a generation error is
      the error and nothing is written; a plan, which has 14 days, is saved,
      and the write's error is the error: with one nothing changes, without
      one the plan is stored dated `now` and cached with that date. */
  predicate SavedOutcome(o: PlanOutcome, userID: string, now: int, writeError: Option<Error>,
                         error: Option<Error>, sent: seq<string>, before: PlanState, after: PlanState)
  {
    && sent == o.sent
    && (o.result.Err? ==> error == Some(o.result.error) && after == before)
    && (o.result.Ok? ==>
          && |o.result.value| == PLAN_LENGTH
          && error == writeError
          && (writeError.Some? ==> after == before)
          && (writeError.None? ==>
                after == PlanState(before.plans[userID := PlanDocument(o.result.value, now)], Some(o.result.value), Some(now))))
  }

  /** A chain that ends in an error leaves the plans and the cache as they
      were. One that ends without error had no write error and leaves a
      14-day plan cached, dated `now`, which is also what the user's stored
      plan fetches back as. */
  lemma SavedOutcomeMeans(o: PlanOutcome, userID: string, now: int, writeError: Option<Error>,
                          error: Option<Error>, sent: seq<string>, before: PlanState, after: PlanState, freshId: (nat, nat) -> Uuid)
    requires SavedOutcome(o, userID, now, writeError, error, sent, before, after)
    ensures error.Some? ==> after == before
    ensures error.None? ==>
      && writeError.None?
      && after.cachedPlan.Some? && |after.cachedPlan.value| == PLAN_LENGTH && after.cachedCreationDate == Some(now)
      && userID in after.plans
      && StoredPlan(Some(after.plans[userID]), None, freshId) == Ok((after.cachedPlan.value, now))
  {
    if error.None? {
      SavedPlanReadsBack(o.result.value, now, freshId);
    }
  }

  /** The entries of a dictionary in its iteration order, which Swift leaves
      unspecified: any order may come out. */
  method Entries(m: map<string, int>) returns (ps: seq<Preference>)
    ensures IsEntriesOf(ps, m)
  {
    ps := [];
    var rest := m;
    while rest != map[]
      invariant forall k | k in rest :: k in m && rest[k] == m[k]
      invariant forall i | 0 <= i < |ps| :: ps[i].0 in m && m[ps[i].0] == ps[i].1 && ps[i].0 !in rest
      invariant forall i, j | 0 <= i < j < |ps| :: ps[i].0 != ps[j].0
      invariant forall k | k in m :: k in rest || exists i | 0 <= i < |ps| :: ps[i].0 == k
      decreases |rest|
    {
      assert rest.Keys != {};
      var k :| k in rest;
      var earlier := ps;
      ps := ps + [(k, rest[k])];
      rest := rest - {k};
      forall key | key in m && key !in rest
        ensures exists i | 0 <= i < |ps| :: ps[i].0 == key
      {
        if key == k {
          assert ps[|ps| - 1].0 == key;
        } else {
          var i :| 0 <= i < |earlier| && earlier[i].0 == key;
          assert ps[i].0 == key;
        }
      }
    }
  }

  // ---------------------------------------------------------------------------
  // The store
  // ---------------------------------------------------------------------------

  class FirestoreManager {
    /** `users/{id}/plans/currentPlan`, by user id. */
    var plans: map<string, Document>
    /** `users/{id}/twoweek_check_records`, in the order they were added. */
    var checkRecords: map<string, seq<CheckRecord>>
    /** `users/{id}/preference_scores/latest`. */
    var preferenceScores: map<string, Document>
    /** The `cachedPlan` and `planCreationDate` user defaults. */
    var cachedPlan: Option<seq<DayPlan>>
    var cachedCreationDate: Option<int>

    constructor ()
      ensures plans == map[] && checkRecords == map[] && preferenceScores == map[]
      ensures cachedPlan == None && cachedCreationDate == None
    {
      plans := map[];
      checkRecords := map[];
      preferenceScores := map[];
      cachedPlan := None;
      cachedCreationDate := None;
    }

    /** `cachePlanLocally(plan:creationDate:)`; the JSON encoding of a plan
        always succeeds. */
    method CachePlanLocally(plan: seq<DayPlan>, creationDate: int)
      modifies this
      ensures cachedPlan == Some(plan) && cachedCreationDate == Some(creationDate)
      ensures plans == old(plans) && checkRecords == old(checkRecords) && preferenceScores == old(preferenceScores)
    {
      cachedPlan := Some(plan);
      cachedCreationDate := Some(creationDate);
    }

    /** `loadCachedPlan()`: the plan last cached, if any. */
    method LoadCachedPlan() returns (plan: Option<seq<DayPlan>>)
      ensures plan == cachedPlan
    {
      plan := cachedPlan;
    }

    /** `savePlanToFirebase(userID:plan:)`: an empty plan is refused with 400
        before any write; otherwise the plan is written with creation date
        `now` and, once the write succeeds, cached with it. */
    method SavePlanToFirebase(userID: string, plan: seq<DayPlan>, now: int, writeError: Option<Error>) returns (error: Option<Error>)
      modifies this
      ensures plan == [] ==> error == Some(EMPTY_PLAN)
      ensures plan != [] ==> error == writeError
      ensures error.Some? ==> plans == old(plans) && cachedPlan == old(cachedPlan) && cachedCreationDate == old(cachedCreationDate)
      ensures error.None? ==>
        && plans == old(plans)[userID := PlanDocument(plan, now)]
        && cachedPlan == Some(plan) && cachedCreationDate == Some(now)
      ensures checkRecords == old(checkRecords) && preferenceScores == old(preferenceScores)
    {
      if plan == [] {
        return Some(EMPTY_PLAN);
      }
      var data := PlanDocument(plan, now);
      if writeError.Some? {
        return writeError;
      }
      plans := plans[userID := data];
      CachePlanLocally(plan, now);
      return None;
    }

    /** `fetchCurrentPlan(userID:)`: the completion's triple of plan,
        creation date and error. */
    method FetchCurrentPlan(userID: string, readError: Option<Error>, freshId: (nat, nat) -> Uuid)
      returns (plan: Option<seq<DayPlan>>, creationDate: Option<int>, error: Option<Error>)
      ensures var r := StoredPlan(if userID in plans then Some(plans[userID]) else None, readError, freshId);
              && (r.Ok? ==> plan == Some(r.value.0) && creationDate == Some(r.value.1) && error == None)
              && (r.Err? ==> plan == None && creationDate == None && error == Some(r.error))
    {
      if readError.Some? {
        return None, None, readError;
      }
      if userID !in plans {
        return None, None, Some(PLAN_NOT_FOUND);
      }
      var found := DecodePlanDocument(plans[userID], freshId);
      if found.None? {
        return None, None, Some(PLAN_NOT_FOUND);
      }
      return Some(found.value.0), Some(found.value.1), None;
    }

    /** `updatePlanInFirebase(userID:plan:)`: a read of the stored plan,
        then a write of the new days under the stored creation date. A read
        error or a missing plan ends it with no write. */
    method UpdatePlanInFirebase(userID: string, plan: seq<DayPlan>, readError: Option<Error>, now: int, writeError: Option<Error>)
      returns (error: Option<Error>)
      modifies this
      ensures readError.Some? ==> error == readError
      ensures readError.None? && userID !in old(plans) ==> error == Some(PLAN_NOT_FOUND)
      ensures readError.None? && userID in old(plans) ==> error == writeError
      ensures error.Some? ==> plans == old(plans)
      ensures error.None? ==> userID in old(plans) && plans == old(plans)[userID := UpdatedDocument(old(plans)[userID], plan, now)]
      ensures checkRecords == old(checkRecords) && preferenceScores == old(preferenceScores)
      ensures cachedPlan == old(cachedPlan) && cachedCreationDate == old(cachedCreationDate)
    {
      if readError.Some? {
        return readError;
      }
      if userID !in plans {
        return Some(PLAN_NOT_FOUND);
      }
      var existing := plans[userID];
      var creationDate := KeptCreationDate(existing, now);
      var updated := PlanDocument(plan, creationDate);
      if writeError.Some? {
        return writeError;
      }
      plans := plans[userID := updated];
      return None;
    }

    /** The preference scores a read of the user's preferences gives: the
        stored ones, or none when the read fails or there is no document. */
    function AvailablePreferences(userID: string, readFails: bool): map<string, int>
      reads this`preferenceScores
    {
      if !readFails && userID in preferenceScores then PreferenceScores(preferenceScores[userID]) else map[]
    }

    /** `fetchUserPreferences(userID:)` and `fetchPreferenceScores(userID:)`:
        the scores of the stored preferences, none when the read fails or
        there is no document. */
    method FetchUserPreferences(userID: string, readFails: bool) returns (preferences: seq<Preference>)
      ensures IsEntriesOf(preferences, AvailablePreferences(userID, readFails))
    {
      if !readFails && userID in preferenceScores {
        preferences := Entries(PreferenceScores(preferenceScores[userID]));
      } else {
        preferences := [];
      }
    }

    /** `updatePreferenceScores(userID:activity:score:)`: a merge of one
        score into the stored preferences, which the write creates if
        needed. */
    method UpdatePreferenceScores(userID: string, activity: string, score: int, writeFails: bool)
      modifies this
      ensures writeFails ==> preferenceScores == old(preferenceScores)
      ensures !writeFails ==>
        var before := if userID in old(preferenceScores) then old(preferenceScores)[userID] else map[];
        preferenceScores == old(preferenceScores)[userID := before[activity := IntValue(score)]]
      ensures !writeFails ==>
        AvailablePreferences(userID, false) == old(AvailablePreferences(userID, false))[activity := score]
      ensures plans == old(plans) && checkRecords == old(checkRecords)
      ensures cachedPlan == old(cachedPlan) && cachedCreationDate == old(cachedCreationDate)
    {
      if !writeFails {
        var before := if userID in preferenceScores then preferenceScores[userID] else map[];
        PreferenceScoresMerge(before, activity, score);
        preferenceScores := preferenceScores[userID := before[activity := IntValue(score)]];
      }
    }

    /** `fetchLatestTwoWeekCheck(userID:)`: the record with the latest date,
        or nothing for an empty user id, a failed read or no records. Among
        records with the same date the first added is taken. */
    method FetchLatestTwoWeekCheck(userID: string, readFails: bool) returns (latest: Option<CheckRecord>)
      ensures latest.None? <==> userID == [] || readFails || userID !in checkRecords || checkRecords[userID] == []
      ensures latest.Some? ==>
        && latest.value in checkRecords[userID]
        && forall r | r in checkRecords[userID] :: r.date <= latest.value.date
    {
      if userID == [] || readFails || userID !in checkRecords || checkRecords[userID] == [] {
        return None;
      }
      var records := checkRecords[userID];
      var best := records[0];
      var i := 1;
      while i < |records|
        invariant 1 <= i <= |records|
        invariant best in records[..i]
        invariant forall j | 0 <= j < i :: records[j].date <= best.date
      {
        if records[i].date > best.date {
          best := records[i];
        }
        i := i + 1;
      }
      assert records[..i] == records;
      return Some(best);
    }

    /** The stored plans and the cache. */
    function Written(): PlanState
      reads this`plans, this`cachedPlan, this`cachedCreationDate
    {
      PlanState(plans, cachedPlan, cachedCreationDate)
    }

    /** `storeTwoWeekCheckAndGeneratePlan`: an empty user id is refused with
        code 1 before any write; otherwise the check is recorded and, once
        that write succeeds, the plan is generated and stored. */
    method StoreTwoWeekCheckAndGeneratePlan(
      userID: string, gadScore: int, gadScoreLevel: string, phqScore: int, phqScoreLevel: string, now: int,
      addError: Option<Error>, preferencesReadFails: bool, server: nat -> Reply, start: nat, env: Env,
      writeError: Option<Error>)
      returns (error: Option<Error>, sent: seq<string>, ghost preferences: seq<Preference>)
      modifies this
      ensures userID == [] ==>
        error == Some(EMPTY_USER_ID) && sent == [] && checkRecords == old(checkRecords) && Written() == old(Written())
      ensures userID != [] && addError.Some? ==>
        error == addError && sent == [] && checkRecords == old(checkRecords) && Written() == old(Written())
      ensures userID != [] && addError.None? ==>
        var before := if userID in old(checkRecords) then old(checkRecords)[userID] else [];
        checkRecords == old(checkRecords)[userID := before + [CheckRecord(now, gadScore, gadScoreLevel, phqScore, phqScoreLevel)]]
      ensures userID != [] && addError.None? ==>
        && IsEntriesOf(preferences, old(AvailablePreferences(userID, preferencesReadFails)))
        && SavedOutcome(PlanWithAI(gadScore, phqScore, preferences, server, start, env),
                        userID, now, writeError, error, sent, old(Written()), Written())
      ensures preferenceScores == old(preferenceScores)
    {
      if userID == [] {
        return Some(EMPTY_USER_ID), [], [];
      }
      if addError.Some? {
        return addError, [], [];
      }
      var before := if userID in checkRecords then checkRecords[userID] else [];
      checkRecords := checkRecords[userID := before + [CheckRecord(now, gadScore, gadScoreLevel, phqScore, phqScoreLevel)]];
      error, sent, preferences := GenerateAndStorePlan(userID, gadScore, phqScore, now, preferencesReadFails, server, start, env, writeError);
    }

    /** `generateAndStorePlan`: the stored preferences are read, a plan is
        generated from them and the scores, and saved. */
    method GenerateAndStorePlan(
      userID: string, gadScore: int, phqScore: int, now: int,
      preferencesReadFails: bool, server: nat -> Reply, start: nat, env: Env, writeError: Option<Error>)
      returns (error: Option<Error>, sent: seq<string>, ghost preferences: seq<Preference>)
      modifies this
      ensures IsEntriesOf(preferences, old(AvailablePreferences(userID, preferencesReadFails)))
      ensures SavedOutcome(PlanWithAI(gadScore, phqScore, preferences, server, start, env),
                           userID, now, writeError, error, sent, old(Written()), Written())
      ensures checkRecords == old(checkRecords) && preferenceScores == old(preferenceScores)
    {
      ghost var before := Written();
      var fetched := FetchUserPreferences(userID, preferencesReadFails);
      preferences := fetched;
      var result;
      result, sent := GeneratePlanWithAI(gadScore, phqScore, fetched, server, start, env);
      ghost var o := PlanWithAI(gadScore, phqScore, fetched, server, start, env);
      if result.Err? {
        error := Some(result.error);
        assert SavedOutcome(o, userID, now, writeError, error, sent, before, Written());
        return;
      }
      PlanWithAILength(gadScore, phqScore, fetched, server, start, env);
      error := SavePlanToFirebase(userID, result.value, now, writeError);
      assert SavedOutcome(o, userID, now, writeError, error, sent, before, Written());
    }
  }
}

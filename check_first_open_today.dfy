/** `CheckFirstOpenToday.checkAndStoreDailyEmotionsIfNeeded`: on the first
    opening of a day, the previous day's top emotions are stored and the
    day's emotions are cleared, once per day, behind the `lastStoredDate`
    marker kept in the user defaults. */
module FirstOpenToday {
  import opened Wrappers
  import opened Calendar

  /** One of the day's top emotions; its score is a whole number here. */
  datatype Emotion = Emotion(name: string, value: int)

  /** What the gate reads and writes: the stored marker, the chat view
      model's `dailyTopEmotions`, the emotion lists handed to
      `storeDailyEmotionsToFirebase`, and the zero-score notifications
      posted. */
  datatype GateState = GateState(
    lastStoredDate: Option<int>,
    dailyTopEmotions: seq<Emotion>,
    stored: seq<seq<Emotion>>,
    scoreResets: nat)

  /** The gate's effect. `loaded` is what `loadDailyTopEmotions` reads
      back; `storeCompletes` says whether the store's completion handler,
      which clears the emotions, runs. */
  function Gate(s: GateState, signedIn: bool, today: int, loaded: seq<Emotion>, storeCompletes: bool): GateState
  {
    if !signedIn || !MarkerDue(s.lastStoredDate, today) then s
    else if loaded != [] then
      var afterStore := s.(dailyTopEmotions := loaded, stored := s.stored + [loaded]);
      var cleared := if storeCompletes then afterStore.(dailyTopEmotions := [], scoreResets := s.scoreResets + 1) else afterStore;
      cleared.(lastStoredDate := Some(today))
    else
      s.(dailyTopEmotions := [], scoreResets := s.scoreResets + 1, lastStoredDate := Some(today))
  }

  /** Without a signed-in user nothing happens; with one, the gate runs
      exactly when the marker is absent or not today, leaving the marker
      at today, storing only non-empty lists, and clearing the emotions
      unless a store is still pending. */
  lemma GateOutcomes(s: GateState, signedIn: bool, today: int, loaded: seq<Emotion>, storeCompletes: bool)
    ensures var t := Gate(s, signedIn, today, loaded, storeCompletes);
            && (!signedIn ==> t == s)
            && (signedIn && !MarkerDue(s.lastStoredDate, today) ==> t == s)
            && (signedIn && MarkerDue(s.lastStoredDate, today) ==>
                  && t.lastStoredDate == Some(today)
                  && t.stored == s.stored + (if loaded == [] then [] else [loaded])
                  && (loaded == [] || storeCompletes ==> t.dailyTopEmotions == [] && t.scoreResets == s.scoreResets + 1)
                  && (loaded != [] && !storeCompletes ==> t.dailyTopEmotions == loaded && t.scoreResets == s.scoreResets))
            && forall i | 0 <= i < |t.stored| :: i < |s.stored| ==> t.stored[i] == s.stored[i]
  {
  }

  /** A second opening the same day does nothing, whatever it loads. */
  lemma GateOncePerDay(s: GateState, today: int, loaded: seq<Emotion>, storeCompletes: bool,
                       loadedAgain: seq<Emotion>, storeCompletesAgain: bool)
    ensures var once := Gate(s, true, today, loaded, storeCompletes);
            Gate(once, true, today, loadedAgain, storeCompletesAgain) == once
  {
  }

  /** Over any run of openings, every list handed to the store is
      non-empty, and the store is called at most once per day opened. */
  lemma {:induction false} GateRun(s: GateState, days: seq<int>, loaded: seq<seq<Emotion>>, completes: seq<bool>)
    requires |loaded| == |days| && |completes| == |days|
    requires forall i | 0 <= i < |s.stored| :: s.stored[i] != []
    ensures var t := Run(s, days, loaded, completes);
            && (forall i | 0 <= i < |t.stored| :: t.stored[i] != [])
            && |t.stored| <= |s.stored| + |days|
  {
    if days != [] {
      var n := |days| - 1;
      GateRun(s, days[..n], loaded[..n], completes[..n]);
    }
  }

  /** The state after a signed-in opening on each of `days` in turn. */
  function Run(s: GateState, days: seq<int>, loaded: seq<seq<Emotion>>, completes: seq<bool>): GateState
    requires |loaded| == |days| && |completes| == |days|
  {
    if days == [] then s
    else
      var n := |days| - 1;
      Gate(Run(s, days[..n], loaded[..n], completes[..n]), true, days[n], loaded[n], completes[n])
  }

  /** The chat view model state the gate touches, with the marker it keeps. */
  class CheckFirstOpenToday {
    var lastStoredDate: Option<int>
    var dailyTopEmotions: seq<Emotion>
    var stored: seq<seq<Emotion>>
    var scoreResets: nat

    constructor (lastStoredDate: Option<int>, dailyTopEmotions: seq<Emotion>)
      ensures State() == GateState(lastStoredDate, dailyTopEmotions, [], 0)
    {
      this.lastStoredDate := lastStoredDate;
      this.dailyTopEmotions := dailyTopEmotions;
      stored := [];
      scoreResets := 0;
    }

    function State(): GateState
      reads this
    {
      GateState(lastStoredDate, dailyTopEmotions, stored, scoreResets)
    }

    /** `loadDailyTopEmotions`, then the store or the clear. */
    method StoreOrClear(loaded: seq<Emotion>, storeCompletes: bool)
      modifies this
      ensures stored == old(stored) + (if loaded == [] then [] else [loaded])
      ensures loaded == [] || storeCompletes ==> dailyTopEmotions == [] && scoreResets == old(scoreResets) + 1
      ensures loaded != [] && !storeCompletes ==> dailyTopEmotions == loaded && scoreResets == old(scoreResets)
      ensures lastStoredDate == old(lastStoredDate)
    {
      dailyTopEmotions := loaded;
      if dailyTopEmotions != [] {
        stored := stored + [dailyTopEmotions];
        if storeCompletes {
          dailyTopEmotions := [];
          scoreResets := scoreResets + 1;
        }
      } else {
        dailyTopEmotions := [];
        scoreResets := scoreResets + 1;
      }
    }

    /** `checkAndStoreDailyEmotionsIfNeeded(viewModel:)`. */
    method CheckAndStoreDailyEmotionsIfNeeded(signedIn: bool, today: int, loaded: seq<Emotion>, storeCompletes: bool)
      modifies this
      ensures State() == Gate(old(State()), signedIn, today, loaded, storeCompletes)
    {
      if signedIn {
        if lastStoredDate.Some? {
          if !IsDateInToday(lastStoredDate.value, today) {
            StoreOrClear(loaded, storeCompletes);
            lastStoredDate := Some(today);
          }
        } else {
          StoreOrClear(loaded, storeCompletes);
          lastStoredDate := Some(today);
        }
      }
    }
  }
}

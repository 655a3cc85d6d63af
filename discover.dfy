/** `DiscoverView`: the home screen with the day's greeting, the two-week
    check status and the tile leading to the daily plan. */
module Discover {
  import opened Wrappers
  import opened Text
  import opened Calendar
  import TwoWeekCheck

  // ---------------------------------------------------------------------------
  // Greeting text
  // ---------------------------------------------------------------------------

  const MAX_GREETING_WORDS: nat := 14
  const ELLIPSIS: string := "..."

  /** `greetingTextShortened`: a greeting of more than 14 words becomes its
      first 14 words joined by single spaces, followed by `"..."`; a shorter
      one is shown as it is. */
  function GreetingTextShortened(text: string): string
  {
    var words := Words(text);
    if |words| > MAX_GREETING_WORDS then Join(words[..MAX_GREETING_WORDS], " ") + ELLIPSIS
    else text
  }

  /** A long greeting keeps its first 14 words, in order, and ends in the
      ellipsis, which joins the last kept word; the result therefore has
      exactly 14 words. */
  lemma LongGreetingShortened(text: string)
    requires |Words(text)| > MAX_GREETING_WORDS
    ensures var r := GreetingTextShortened(text);
            var w := Words(text);
            && HasSuffix(r, ELLIPSIS)
            && Words(r[..|r| - |ELLIPSIS|]) == w[..MAX_GREETING_WORDS]
            && Words(r) == w[..MAX_GREETING_WORDS - 1] + [w[MAX_GREETING_WORDS - 1] + ELLIPSIS]
  {
    var w := Words(text);
    var kept := w[..MAX_GREETING_WORDS];
    var joined := Join(kept, " ");
    var r := joined + ELLIPSIS;
    assert r[..|r| - |ELLIPSIS|] == joined;
    WordsOfJoin(kept);
    JoinExtendsLast(kept, " ", ELLIPSIS);
    var shown := kept[..MAX_GREETING_WORDS - 1] + [kept[MAX_GREETING_WORDS - 1] + ELLIPSIS];
    assert ' ' !in ELLIPSIS;
    assert forall i | 0 <= i < |shown| :: shown[i] != [] && ' ' !in shown[i] by {
      forall i | 0 <= i < |shown| ensures shown[i] != [] && ' ' !in shown[i] {
        if i < MAX_GREETING_WORDS - 1 {
          assert shown[i] == kept[i];
        }
      }
    }
    WordsOfJoin(shown);
  }

  /** Shortening a shortened greeting changes nothing. */
  lemma ShorteningIdempotent(text: string)
    ensures GreetingTextShortened(GreetingTextShortened(text)) == GreetingTextShortened(text)
  {
    if |Words(text)| > MAX_GREETING_WORDS {
      LongGreetingShortened(text);
    }
  }

  // ---------------------------------------------------------------------------
  // Cycling through the greetings
  // ---------------------------------------------------------------------------

  /** The greeting index after `taps` taps from `index`, each tap moving to
      `(index + 1) % count`. */
  function AfterTaps(index: nat, taps: nat, count: nat): nat
    requires count > 0
  {
    if taps == 0 then index else (AfterTaps(index, taps - 1, count) + 1) % count
  }

  /** One tap from the last greeting goes back to the first; from any
      other it goes to the next. */
  lemma TapStep(index: nat, count: nat)
    requires index < count
    ensures (index + 1) % count == if index + 1 < count then index + 1 else 0
  {
  }

  /** Up to `count` taps move the index that many places round the
      greetings, wrapping past the last one at most once. */
  lemma {:induction false} AfterTapsRotates(index: nat, taps: nat, count: nat)
    requires index < count && taps <= count
    ensures AfterTaps(index, taps, count) == if index + taps < count then index + taps else index + taps - count
  {
    if taps > 0 {
      AfterTapsRotates(index, taps - 1, count);
      TapStep(AfterTaps(index, taps - 1, count), count);
    }
  }

  /** As many taps as there are greetings bring the index back to where it
      started, and on the way no greeting shows twice. */
  lemma TapsCycle(index: nat, count: nat)
    requires index < count
    ensures AfterTaps(index, count, count) == index
    ensures forall t, u | 0 <= t < u < count :: AfterTaps(index, t, count) != AfterTaps(index, u, count)
  {
    AfterTapsRotates(index, count, count);
    forall t, u | 0 <= t < u < count ensures AfterTaps(index, t, count) != AfterTaps(index, u, count) {
      AfterTapsRotates(index, t, count);
      AfterTapsRotates(index, u, count);
    }
  }

  // ---------------------------------------------------------------------------
  // Two-week check status and the plan tile
  // ---------------------------------------------------------------------------

  /** The `twoWeekStatus` string: `"Due"` or `"Complete"`. */
  datatype TwoWeekStatus = Due | Complete

  function StatusText(s: TwoWeekStatus): string
  {
    match s
    case Due => "Due"
    case Complete => "Complete"
  }

  /** `checkTwoWeekStatus` once the latest check is known: due when there
      is none or when 14 days or more have passed since it. */
  function StatusFor(latestDate: Option<int>, today: int): TwoWeekStatus
  {
    match latestDate
    case None => Due
    case Some(date) => if DaysBetween(date, today) >= TwoWeekCheck.RECHECK_DAYS then Due else Complete
  }

  /** The home screen calls the check complete exactly when the check view,
      opened the same day, would show the previous results instead of a new
      check. */
  lemma StatusAgreesWithCheckView(latest: TwoWeekCheck.LatestCheck, today: int)
    ensures StatusFor(latest.date, today) == Complete <==> TwoWeekCheck.ShowsPreviousResults(latest, today)
  {
  }

  const CHECK_NOW: string := "Check Now"
  const DAY_PREFIX: string := "Day "

  /** The value of the "Daily Self-care Plan" tile. */
  function PlanTileLabel(isTwoWeekCheckDue: bool, currentDay: int): string
  {
    if isTwoWeekCheckDue then CHECK_NOW else DAY_PREFIX + IntToString(currentDay)
  }

  /** The tile tells a due check apart from every plan day, and a plan day
      label reads back as its day number. */
  lemma PlanTileLabelDistinguishes(currentDay: int, otherDay: int)
    requires IsInt(currentDay)
    ensures PlanTileLabel(true, otherDay) != PlanTileLabel(false, currentDay)
    ensures var tile := PlanTileLabel(false, currentDay);
            StartsWith(tile, DAY_PREFIX) && ParseInt(tile[|DAY_PREFIX|..]) == Some(currentDay)
  {
    var tile := PlanTileLabel(false, currentDay);
    assert tile[0] == 'D';
    assert CHECK_NOW[0] == 'C';
    assert tile[|DAY_PREFIX|..] == IntToString(currentDay);
    ParseIntToString(currentDay);
  }

  // ---------------------------------------------------------------------------
  // The view
  // ---------------------------------------------------------------------------

  class DiscoverView {
    var greetingTexts: seq<string>
    var currentGreetingIndex: int
    var showGreeting: bool
    var isRecorded: bool
    var twoWeekStatus: TwoWeekStatus
    var twoWeekCheckCompleted: bool
    var userDataLoaded: bool
    /** The `lastLaunchDate` stored in the user defaults. */
    var lastLaunchDate: Option<int>
    /** Greeting fetches started (`fetchGreetingTexts` calls). */
    var greetingFetches: nat

    /** The greeting index points into the greetings whenever there are
        some, and the completion flag is back at rest after its handler. */
    predicate Valid()
      reads this
    {
      && currentGreetingIndex >= 0
      && (greetingTexts != [] ==> currentGreetingIndex < |greetingTexts|)
      && !twoWeekCheckCompleted
    }

    constructor (lastLaunchDate: Option<int>)
      ensures Valid()
      ensures greetingTexts == [] && currentGreetingIndex == 0 && !showGreeting && !isRecorded
      ensures twoWeekStatus == Due && !userDataLoaded
      ensures this.lastLaunchDate == lastLaunchDate && greetingFetches == 0
    {
      greetingTexts := [];
      currentGreetingIndex := 0;
      showGreeting := false;
      isRecorded := false;
      twoWeekStatus := Due;
      twoWeekCheckCompleted := false;
      userDataLoaded := false;
      this.lastLaunchDate := lastLaunchDate;
      greetingFetches := 0;
    }

    /** The greeting bubble's text, when it shows. */
    function VisibleGreeting(): Option<string>
      requires Valid()
      reads this
    {
      if showGreeting && greetingTexts != [] then Some(GreetingTextShortened(greetingTexts[currentGreetingIndex]))
      else None
    }

    /** A tap on the greeting bubble moves to the next greeting, round to
        the first after the last; without a bubble there is nothing to tap.
        `isGreetingRecorded` is the chat view model's answer. */
    method TapGreeting(isGreetingRecorded: string -> bool)
      requires Valid()
      modifies this
      ensures Valid()
      ensures greetingTexts == old(greetingTexts) && showGreeting == old(showGreeting)
      ensures old(showGreeting && greetingTexts != []) ==>
        && currentGreetingIndex == (old(currentGreetingIndex) + 1) % |greetingTexts|
        && isRecorded == isGreetingRecorded(greetingTexts[currentGreetingIndex])
      ensures !old(showGreeting && greetingTexts != []) ==>
        currentGreetingIndex == old(currentGreetingIndex) && isRecorded == old(isRecorded)
      ensures VisibleGreeting() ==
        if old(showGreeting && greetingTexts != [])
        then Some(GreetingTextShortened(greetingTexts[(old(currentGreetingIndex) + 1) % |greetingTexts|]))
        else None
      ensures twoWeekStatus == old(twoWeekStatus) && lastLaunchDate == old(lastLaunchDate)
      ensures greetingFetches == old(greetingFetches) && userDataLoaded == old(userDataLoaded)
    {
      if showGreeting && greetingTexts != [] {
        currentGreetingIndex := (currentGreetingIndex + 1) % |greetingTexts|;
        isRecorded := isGreetingRecorded(greetingTexts[currentGreetingIndex]);
      }
    }

    /** The completion of `fetchGreetingTexts`: the new greetings show from
        the first one. */
    method ReceiveGreetings(greetings: seq<string>, isGreetingRecorded: string -> bool)
      requires Valid()
      modifies this
      ensures Valid()
      ensures greetingTexts == greetings && showGreeting && currentGreetingIndex == 0
      ensures isRecorded == isGreetingRecorded(if greetings == [] then "" else greetings[0])
      ensures VisibleGreeting() == if greetings == [] then None else Some(GreetingTextShortened(greetings[0]))
      ensures twoWeekStatus == old(twoWeekStatus) && lastLaunchDate == old(lastLaunchDate)
      ensures greetingFetches == old(greetingFetches) && userDataLoaded == old(userDataLoaded)
    {
      greetingTexts := greetings;
      showGreeting := true;
      currentGreetingIndex := 0;
      isRecorded := isGreetingRecorded(if greetings == [] then "" else greetings[0]);
    }

    /** `checkFirstLaunchAndFetchGreeting`: the first appearance of a day
        fetches greetings and stores today as the launch date; later ones
        that day do nothing. */
    method CheckFirstLaunchAndFetchGreeting(today: int)
      requires Valid()
      modifies this
      ensures Valid()
      ensures MarkerDue(old(lastLaunchDate), today) ==>
        greetingFetches == old(greetingFetches) + 1 && lastLaunchDate == Some(today)
      ensures !MarkerDue(old(lastLaunchDate), today) ==>
        greetingFetches == old(greetingFetches) && lastLaunchDate == old(lastLaunchDate)
      ensures !MarkerDue(lastLaunchDate, today)
      ensures greetingTexts == old(greetingTexts) && currentGreetingIndex == old(currentGreetingIndex)
      ensures showGreeting == old(showGreeting) && isRecorded == old(isRecorded)
      ensures twoWeekStatus == old(twoWeekStatus) && userDataLoaded == old(userDataLoaded)
    {
      if lastLaunchDate.Some? {
        if !IsDateInToday(lastLaunchDate.value, today) {
          greetingFetches := greetingFetches + 1;
          lastLaunchDate := Some(today);
        }
      } else {
        greetingFetches := greetingFetches + 1;
        lastLaunchDate := Some(today);
      }
    }

    /** `checkTwoWeekStatus` once the latest check date has arrived. */
    method CheckTwoWeekStatus(latestDate: Option<int>, today: int)
      requires Valid()
      modifies this
      ensures Valid()
      ensures twoWeekStatus == StatusFor(latestDate, today)
      ensures greetingTexts == old(greetingTexts) && currentGreetingIndex == old(currentGreetingIndex)
      ensures showGreeting == old(showGreeting) && isRecorded == old(isRecorded)
      ensures lastLaunchDate == old(lastLaunchDate) && greetingFetches == old(greetingFetches)
      ensures userDataLoaded == old(userDataLoaded)
    {
      if latestDate.Some? {
        if DaysBetween(latestDate.value, today) >= TwoWeekCheck.RECHECK_DAYS {
          twoWeekStatus := Due;
        } else {
          twoWeekStatus := Complete;
        }
      } else {
        twoWeekStatus := Due;
      }
    }

    /** The check view sets the `twoWeekCheckCompleted` binding; the
        `onChange` handler then marks the status complete and resets the
        flag for next time. */
    method SetTwoWeekCheckCompleted(value: bool)
      requires Valid()
      modifies this
      ensures Valid()
      ensures value ==> twoWeekStatus == Complete
      ensures !value ==> twoWeekStatus == old(twoWeekStatus)
      ensures greetingTexts == old(greetingTexts) && currentGreetingIndex == old(currentGreetingIndex)
      ensures showGreeting == old(showGreeting) && isRecorded == old(isRecorded)
      ensures lastLaunchDate == old(lastLaunchDate) && greetingFetches == old(greetingFetches)
      ensures userDataLoaded == old(userDataLoaded)
    {
      var changed := value != twoWeekCheckCompleted;
      twoWeekCheckCompleted := value;
      if changed && twoWeekCheckCompleted {
        twoWeekStatus := Complete;
        twoWeekCheckCompleted := false;
      }
    }

    /** `onAppear`: with a signed-in user, the status is checked, the
        greeting gate runs and the screen is shown; without one nothing
        changes. The latest check date stands for the answer of
        `fetchLatestTwoWeekCheck`. */
    method OnAppear(signedIn: bool, latestDate: Option<int>, today: int)
      requires Valid()
      modifies this
      ensures Valid()
      ensures !signedIn ==>
        && twoWeekStatus == old(twoWeekStatus) && lastLaunchDate == old(lastLaunchDate)
        && greetingFetches == old(greetingFetches) && userDataLoaded == old(userDataLoaded)
      ensures signedIn ==>
        && twoWeekStatus == StatusFor(latestDate, today) && userDataLoaded
        && greetingFetches == old(greetingFetches) + (if MarkerDue(old(lastLaunchDate), today) then 1 else 0)
        && !MarkerDue(lastLaunchDate, today)
      ensures greetingTexts == old(greetingTexts) && currentGreetingIndex == old(currentGreetingIndex)
      ensures showGreeting == old(showGreeting) && isRecorded == old(isRecorded)
    {
      if signedIn {
        CheckTwoWeekStatus(latestDate, today);
        CheckFirstLaunchAndFetchGreeting(today);
        userDataLoaded := true;
      }
    }
  }
}

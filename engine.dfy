/** The playback state machine of `RsvpEngine`: the token list, the position,
    the playing flag and the one pending timer, with the display writes, the
    progress reports and the completion notices recorded as logs.

    `setTimeout` is the field `pending` (a callback is scheduled and has not
    fired) with the delay it was given, `clearTimeout` clears it, and the timer
    firing is the method `Fire`. Reading `words[i]` outside the list yields
    `undefined` in the source, and the next step (`word.replace` in
    `processWord` or `calculateDelay`) throws a TypeError; the methods that can
    get there return `ok == false` for that outcome, with the state the source
    is left in at the throw. */
module Engine {
  import opened Focus
  import opened Pacing

  /** One call of the progress callback: `(percent, index)`. */
  datatype Report = Report(percent: int, index: int)

  /** `Math.floor(index / count * 100)`, computed exactly: the largest whole
      percentage not above the position's share of the list. */
  function Percent(index: int, count: int): int
    requires 0 <= index < count
  {
    (100 * index) / count
  }

  /** The percentage is a whole number from 0 to 99, and the floor of the
      position's share: `p/100 <= index/count < (p+1)/100`. */
  lemma PercentFloor(index: int, count: int)
    requires 0 <= index < count
    ensures var p := Percent(index, count);
      0 <= p <= 99 && p * count <= 100 * index < (p + 1) * count
  {
  }

  function Min(a: int, b: int): int { if a <= b then a else b }

  function Max(a: int, b: int): int { if a >= b then a else b }

  class RsvpEngine {
    var words: seq<string>
    var currentIndex: int
    var isPlaying: bool
    var wpm: int
    /** A timeout is scheduled and has neither fired nor been cleared. */
    var pending: bool
    /** The delay the latest timeout was scheduled with. */
    var scheduledDelay: real
    var newlineEnabled: bool
    var breakEvery: int
    var paragraphCount: nat
    /** Whether `onProgress` and `onComplete` are set. */
    var hasOnProgress: bool
    var hasOnComplete: bool
    /** What the three display regions currently show. */
    var display: Parts

    /** Every frame written to the display, every progress report, and the
        number of completion notices, in order. */
    ghost var frames: seq<Parts>
    ghost var reports: seq<Report>
    ghost var completions: nat

    /** The object invariant: a usable rate, and no timer without playing. */
    ghost predicate Valid()
      reads this
    {
      wpm > 0 && (pending ==> isPlaying)
    }

    /** A timer is pending exactly while playing. */
    ghost predicate Synced()
      reads this
    {
      pending == isPlaying
    }

    /** The position names a token, or there is no token to show. */
    ghost predicate Showable()
      reads this
    {
      |words| == 0 || 0 <= currentIndex < |words|
    }

    /** The effect of a completed `updateDisplay(trigger)`: nothing when the list
        is empty, otherwise the current token's split is written and logged and,
        when asked for and a callback is set, the progress is reported. */
    twostate predicate Shown(trigger: bool)
      reads this`words, this`currentIndex, this`hasOnProgress
      reads this`display, this`frames, this`reports
    {
      if |words| == 0 then
        display == old(display) && frames == old(frames) && reports == old(reports)
      else
        0 <= currentIndex < |words| &&
        display == Decompose(words[currentIndex]) &&
        frames == old(frames) + [display] &&
        reports == old(reports) +
          (if trigger && hasOnProgress
           then [Report(Percent(currentIndex, |words|), currentIndex)] else [])
    }

    /** Nothing was written to the display and nothing was reported. */
    twostate predicate Unshown()
      reads this`display, this`frames, this`reports
    {
      display == old(display) && frames == old(frames) && reports == old(reports)
    }

    /** The settings no playback operation touches. */
    twostate predicate SameSettings()
      reads this
    {
      wpm == old(wpm) && newlineEnabled == old(newlineEnabled) &&
      breakEvery == old(breakEvery) && hasOnProgress == old(hasOnProgress) &&
      hasOnComplete == old(hasOnComplete)
    }

    constructor ()
      ensures Valid() && Synced()
      ensures words == [] && currentIndex == 0 && !isPlaying && !pending
      ensures wpm == 600 && newlineEnabled && breakEvery == 0 && paragraphCount == 0
      ensures !hasOnProgress && !hasOnComplete
      ensures frames == [] && reports == [] && completions == 0
    {
      words := [];
      currentIndex := 0;
      isPlaying := false;
      wpm := 600;
      pending := false;
      scheduledDelay := 0.0;
      newlineEnabled := true;
      breakEvery := 0;
      paragraphCount := 0;
      hasOnProgress := false;
      hasOnComplete := false;
      display := Parts("", "", "");
      frames := [];
      reports := [];
      completions := 0;
    }

    /** `setWords`: installs the list and the start position as given (no
        clamping, no reset of the paragraph counter, no pause) and shows the
        frame without reporting progress. */
    method SetWords(newWords: seq<string>, startIndex: int) returns (ok: bool)
      requires Valid()
      modifies this
      ensures Valid()
      ensures words == newWords && currentIndex == startIndex
      ensures ok == Showable()
      ensures if ok then Shown(false) else Unshown()
      ensures isPlaying == old(isPlaying) && pending == old(pending)
      ensures scheduledDelay == old(scheduledDelay) && paragraphCount == old(paragraphCount)
      ensures SameSettings() && completions == old(completions)
    {
      words := newWords;
      currentIndex := startIndex;
      ok := UpdateDisplay(false);
    }

    /** `setWpm`, for a rate the caller has already parsed as positive. */
    method SetWpm(rate: int)
      requires Valid() && rate > 0
      modifies this`wpm
      ensures Valid() && wpm == rate
    {
      wpm := rate;
    }

    /** `play`: nothing when already playing or past the end; otherwise starts
        playing and runs the current token, which schedules one timeout. */
    method Play() returns (ok: bool)
      requires Valid()
      modifies this
      ensures Valid() && words == old(words) && currentIndex == old(currentIndex)
      ensures SameSettings() && completions == old(completions)
      ensures old(Synced()) && ok ==> Synced()
      ensures old(isPlaying) || old(currentIndex) >= |words| ==>
        ok && isPlaying == old(isPlaying) && pending == old(pending) &&
        scheduledDelay == old(scheduledDelay) && paragraphCount == old(paragraphCount) &&
        Unshown()
      ensures !old(isPlaying) && old(currentIndex) < |words| ==>
        isPlaying && ok == (0 <= currentIndex) &&
        (ok ==>
           pending && Shown(true) &&
           Tick(scheduledDelay, paragraphCount)
           == Schedule(words[currentIndex], wpm, newlineEnabled, breakEvery, old(paragraphCount))) &&
        (!ok ==>
           !pending && Unshown() && scheduledDelay == old(scheduledDelay) &&
           paragraphCount == old(paragraphCount))
    {
      if isPlaying || currentIndex >= |words| {
        return true;
      }
      isPlaying := true;
      ok := Run();
    }

    /** `pause`: stops playing and clears any pending timeout. */
    method Pause()
      requires Valid()
      modifies this`isPlaying, this`pending
      ensures Valid() && Synced() && !isPlaying && !pending
    {
      isPlaying := false;
      pending := false;
    }

    /** `restart`: pauses, returns to the first token, clears the paragraph
        counter and shows the first token. */
    method Restart()
      requires Valid()
      modifies this
      ensures Valid() && Synced() && !isPlaying && !pending
      ensures currentIndex == 0 && paragraphCount == 0
      ensures words == old(words) && scheduledDelay == old(scheduledDelay)
      ensures SameSettings() && completions == old(completions)
      ensures Shown(true)
    {
      Pause();
      currentIndex := 0;
      paragraphCount := 0;
      var _ := UpdateDisplay(true);
    }

    /** `prev`: pauses and steps back one token, never below 0. */
    method Prev() returns (ok: bool)
      requires Valid()
      modifies this
      ensures Valid() && Synced() && !isPlaying && !pending
      ensures currentIndex == Max(0, old(currentIndex) - 1)
      ensures currentIndex >= 0 && (old(currentIndex) == 0 ==> currentIndex == 0)
      ensures ok == Showable()
      ensures if ok then Shown(true) else Unshown()
      ensures words == old(words) && scheduledDelay == old(scheduledDelay)
      ensures paragraphCount == old(paragraphCount)
      ensures SameSettings() && completions == old(completions)
    {
      Pause();
      currentIndex := Max(0, currentIndex - 1);
      ok := UpdateDisplay(true);
    }

    /** `next`: pauses and steps forward one token, never past the last. */
    method Next() returns (ok: bool)
      requires Valid()
      modifies this
      ensures Valid() && Synced() && !isPlaying && !pending
      ensures currentIndex == Min(|words| - 1, old(currentIndex) + 1)
      ensures currentIndex <= |words| - 1
      ensures ok == Showable()
      ensures if ok then Shown(true) else Unshown()
      ensures words == old(words) && scheduledDelay == old(scheduledDelay)
      ensures paragraphCount == old(paragraphCount)
      ensures SameSettings() && completions == old(completions)
    {
      Pause();
      currentIndex := Min(|words| - 1, currentIndex + 1);
      ok := UpdateDisplay(true);
    }

    /** `seek`: moves to the requested position clamped into the list and shows
        it. It does not pause: a pending timeout stays pending. */
    method Seek(index: int)
      requires Valid()
      modifies this
      ensures Valid()
      ensures currentIndex == Min(|words| - 1, Max(0, index))
      ensures |words| > 0 ==> 0 <= currentIndex < |words|
      ensures Shown(true)
      ensures isPlaying == old(isPlaying) && pending == old(pending)
      ensures words == old(words) && scheduledDelay == old(scheduledDelay)
      ensures paragraphCount == old(paragraphCount)
      ensures SameSettings() && completions == old(completions)
    {
      currentIndex := Min(|words| - 1, Max(0, index));
      var _ := UpdateDisplay(true);
    }

    /** `updateDisplay`: writes the current token's split and, when asked for,
        reports the progress. */
    method UpdateDisplay(triggerCallback: bool) returns (ok: bool)
      modifies this`display, this`frames, this`reports
      ensures ok == Showable()
      ensures if ok then Shown(triggerCallback) else Unshown()
    {
      if |words| == 0 {
        return true;
      }
      if !(0 <= currentIndex < |words|) {
        // `words[currentIndex]` is undefined and processWord throws
        return false;
      }
      var parts := ProcessWord(words[currentIndex]);
      display := parts;
      frames := frames + [parts];
      if triggerCallback && hasOnProgress {
        reports := reports + [Report(Percent(currentIndex, |words|), currentIndex)];
      }
      return true;
    }

    /** `run`: when playing, shows the current token, computes its delay (with
        the paragraph-break cadence) and schedules one timeout with it. */
    method Run() returns (ok: bool)
      requires Valid() && !pending
      modifies this
      ensures Valid() && words == old(words) && currentIndex == old(currentIndex)
      ensures isPlaying == old(isPlaying)
      ensures SameSettings() && completions == old(completions)
      ensures !old(isPlaying) ==>
        ok && !pending && scheduledDelay == old(scheduledDelay) &&
        paragraphCount == old(paragraphCount) && Unshown()
      ensures old(isPlaying) ==> ok == (0 <= currentIndex < |words|)
      ensures old(isPlaying) && ok ==>
        pending && Shown(true) &&
        Tick(scheduledDelay, paragraphCount)
        == Schedule(words[currentIndex], wpm, newlineEnabled, breakEvery, old(paragraphCount))
      ensures old(isPlaying) && !ok ==>
        !pending && scheduledDelay == old(scheduledDelay) &&
        paragraphCount == old(paragraphCount) && Unshown()
    {
      if !isPlaying {
        return true;
      }
      ok := UpdateDisplay(true);
      if !ok {
        return;
      }
      if !(0 <= currentIndex < |words|) {
        // `words[currentIndex]` is undefined and calculateDelay throws
        return false;
      }
      var tick := Schedule(words[currentIndex], wpm, newlineEnabled, breakEvery, paragraphCount);
      paragraphCount := tick.paragraphCount;
      pending := true;
      scheduledDelay := tick.delay;
    }

    /** The scheduled timeout fires: the position advances by one; inside the
        list the next token runs, at the end playing stops and completion is
        notified once. */
    method Fire() returns (ok: bool)
      requires Valid() && pending
      modifies this
      ensures Valid() && words == old(words) && SameSettings()
      ensures currentIndex == old(currentIndex) + 1
      ensures ok ==> Synced()
      ensures currentIndex >= |words| ==>
        ok && !isPlaying && !pending && Unshown() &&
        completions == old(completions) + (if hasOnComplete then 1 else 0) &&
        scheduledDelay == old(scheduledDelay) && paragraphCount == old(paragraphCount)
      ensures currentIndex < |words| ==>
        isPlaying && completions == old(completions) && ok == (0 <= currentIndex) &&
        (ok ==>
           pending && Shown(true) &&
           Tick(scheduledDelay, paragraphCount)
           == Schedule(words[currentIndex], wpm, newlineEnabled, breakEvery, old(paragraphCount))) &&
        (!ok ==>
           !pending && Unshown() && scheduledDelay == old(scheduledDelay) &&
           paragraphCount == old(paragraphCount))
    {
      pending := false;
      currentIndex := currentIndex + 1;
      if currentIndex < |words| {
        ok := Run();
      } else {
        isPlaying := false;
        if hasOnComplete {
          completions := completions + 1;
        }
        ok := true;
      }
    }
  }
}

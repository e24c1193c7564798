/** The delay calculator (`calculateDelay`) and the paragraph-break cadence
    that `run` applies on top of it. Delays are exact reals in milliseconds. */
module Pacing {
  import opened Text

  /** Milliseconds per word at `wpm` words per minute. */
  function BaseDelay(wpm: int): (b: real)
    requires wpm > 0
    ensures 0.0 < b <= 60000.0
  {
    60000.0 / (wpm as real)
  }

  /** The length factor, by stripped-length bucket. */
  function Factor(len: nat): (f: real)
    ensures 1.0 <= f <= 2.0
  {
    if 6 <= len <= 8 then 1.2
    else if 9 <= len <= 12 then 1.4
    else if 13 <= len <= 16 then 1.7
    else if len >= 17 then 2.0
    else 1.0
  }

  /** A longer stripped token never gets a smaller factor. */
  lemma FactorMonotone(l1: nat, l2: nat)
    requires l1 <= l2
    ensures Factor(l1) <= Factor(l2)
  {
  }

  /** The factor changes from one length to the next exactly at the bucket
      boundaries 6, 9, 13 and 17, and then it grows. */
  lemma FactorSteps(len: nat)
    ensures Factor(len + 1) != Factor(len) <==> len + 1 == 6 || len + 1 == 9 || len + 1 == 13 || len + 1 == 17
    ensures Factor(len + 1) != Factor(len) ==> Factor(len) < Factor(len + 1)
  {
  }

  /** The flat punctuation surcharge in milliseconds. Every mark present adds
      its own amount; the paragraph marker counts only when enabled. The
      source tests each mark with `includes`; see `ExtraAsIncludes`. */
  function Extra(word: string, newlineEnabled: bool): (e: nat)
    ensures e <= 1170
    ensures e == 0 <==>
      ',' !in word && ';' !in word && ':' !in word &&
      '.' !in word && '?' !in word && '!' !in word &&
      !(newlineEnabled && Includes(word, Sentinel))
  {
    (if ',' in word then 100 else 0)
    + (if ';' in word then 140 else 0)
    + (if ':' in word then 160 else 0)
    + (if '.' in word then 220 else 0)
    + (if '?' in word || '!' in word then 250 else 0)
    + (if Includes(word, Sentinel) && newlineEnabled then 300 else 0)
  }

  /** The surcharge as the source writes it, with a substring search for each
      mark: for a one-character mark the search is membership. */
  lemma ExtraAsIncludes(word: string, newlineEnabled: bool)
    ensures Extra(word, newlineEnabled) ==
      (if Includes(word, ",") then 100 else 0)
      + (if Includes(word, ";") then 140 else 0)
      + (if Includes(word, ":") then 160 else 0)
      + (if Includes(word, ".") then 220 else 0)
      + (if Includes(word, "?") || Includes(word, "!") then 250 else 0)
      + (if Includes(word, Sentinel) && newlineEnabled then 300 else 0)
  {
    IncludesChar(word, ',');
    IncludesChar(word, ';');
    IncludesChar(word, ':');
    IncludesChar(word, '.');
    IncludesChar(word, '?');
    IncludesChar(word, '!');
    assert "," == [','] && ";" == [';'] && ":" == [':'];
    assert "." == ['.'] && "?" == ['?'] && "!" == ['!'];
  }

  /** `calculateDelay`: the base delay scaled by the length factor, plus the
      punctuation surcharge. It is never shorter than the base delay. */
  function Delay(word: string, wpm: int, newlineEnabled: bool): real
    requires wpm > 0
  {
    BaseDelay(wpm) * Factor(|Clean(word)|) + Extra(word, newlineEnabled) as real
  }

  /** A delay is never shorter than the base delay and never longer than twice
      it plus every surcharge. */
  lemma DelayBounds(word: string, wpm: int, newlineEnabled: bool)
    requires wpm > 0
    ensures BaseDelay(wpm) <= Delay(word, wpm, newlineEnabled) <= 2.0 * BaseDelay(wpm) + 1170.0
  {
  }

  /** With the punctuation fixed, the delay never decreases with stripped length. */
  lemma DelayMonotone(w1: string, w2: string, wpm: int, newlineEnabled: bool)
    requires wpm > 0
    requires Extra(w1, newlineEnabled) == Extra(w2, newlineEnabled)
    requires |Clean(w1)| <= |Clean(w2)|
    ensures Delay(w1, wpm, newlineEnabled) <= Delay(w2, wpm, newlineEnabled)
  {
    FactorMonotone(|Clean(w1)|, |Clean(w2)|);
  }

  /** With the punctuation fixed, one more letter or digit lengthens the delay
      exactly when the stripped length reaches 6, 9, 13 or 17; otherwise the
      delay is unchanged. */
  lemma DelayStepsAtBoundaries(w1: string, w2: string, wpm: int, newlineEnabled: bool)
    requires wpm > 0
    requires Extra(w1, newlineEnabled) == Extra(w2, newlineEnabled)
    requires |Clean(w2)| == |Clean(w1)| + 1
    ensures Delay(w1, wpm, newlineEnabled) <= Delay(w2, wpm, newlineEnabled)
    ensures Delay(w1, wpm, newlineEnabled) < Delay(w2, wpm, newlineEnabled)
        <==> (|Clean(w2)| == 6 || |Clean(w2)| == 9 || |Clean(w2)| == 13 || |Clean(w2)| == 17)
  {
    var l := |Clean(w1)|;
    FactorSteps(l);
    DelayMonotone(w1, w2, wpm, newlineEnabled);
  }

  /** Long pause, in milliseconds, forced on every `breakEvery`-th paragraph break. */
  const LongPause: real := 3000.0

  /** The delay `run` schedules and the paragraph counter it leaves. */
  datatype Tick = Tick(delay: real, paragraphCount: nat)

  /** The delay and counter update of `run` for one token: a paragraph break
      bumps the counter, and once the counter reaches a positive `breakEvery`
      the delay becomes the long pause and the counter restarts at 0. */
  function Schedule(word: string, wpm: int, newlineEnabled: bool, breakEvery: int, count: nat): Tick
    requires wpm > 0
  {
    var delay := Delay(word, wpm, newlineEnabled);
    if word == Sentinel then
      var c := count + 1;
      if breakEvery > 0 && c >= breakEvery then Tick(LongPause, 0) else Tick(delay, c)
    else Tick(delay, count)
  }

  /** An ordinary token keeps the counter and gets its own delay; a paragraph
      break without a cadence only bumps the counter; with a positive cadence
      the counter stays below it; and the delay is always the token's own or
      the long pause. */
  lemma ScheduleTick(word: string, wpm: int, newlineEnabled: bool, breakEvery: int, count: nat)
    requires wpm > 0
    ensures var t := Schedule(word, wpm, newlineEnabled, breakEvery, count);
      (word != Sentinel ==> t == Tick(Delay(word, wpm, newlineEnabled), count)) &&
      (word == Sentinel && breakEvery > 0 ==> t.paragraphCount < breakEvery) &&
      (word == Sentinel && breakEvery <= 0 ==> t == Tick(Delay(word, wpm, newlineEnabled), count + 1)) &&
      (t.delay == LongPause || t.delay == Delay(word, wpm, newlineEnabled))
  {
  }

  /** With a positive cadence `b` and a counter already below it, a paragraph
      break advances the counter modulo `b`, and it gets the long pause exactly
      when it is the `b`-th since the last one. */
  lemma CadenceCycle(wpm: int, newlineEnabled: bool, b: int, count: nat)
    requires wpm > 0 && count < b
    ensures var t := Schedule(Sentinel, wpm, newlineEnabled, b, count);
      t.paragraphCount == (count + 1) % b &&
      (count == b - 1 ==> t.delay == LongPause) &&
      (count < b - 1 ==> t.delay == Delay(Sentinel, wpm, newlineEnabled))
  {
  }

  /** Cadence 3: the first two breaks get the normal delay, the third the long
      pause with the counter back at 0, and the fourth the normal delay again. */
  lemma CadenceOfThree(wpm: int, newlineEnabled: bool)
    requires wpm > 0
    ensures Schedule(Sentinel, wpm, newlineEnabled, 3, 0) == Tick(Delay(Sentinel, wpm, newlineEnabled), 1)
    ensures Schedule(Sentinel, wpm, newlineEnabled, 3, 1) == Tick(Delay(Sentinel, wpm, newlineEnabled), 2)
    ensures Schedule(Sentinel, wpm, newlineEnabled, 3, 2) == Tick(LongPause, 0)
  {
  }

  /** A 15-letter token without marks, such as `extraordinarily`, at 600 words
      per minute: 100 ms scaled by 1.7. */
  lemma FifteenLetterDelay(word: string, newlineEnabled: bool)
    requires |Clean(word)| == 15 && Extra(word, newlineEnabled) == 0
    ensures Delay(word, 600, newlineEnabled) == 170.0
  {
  }

  /** The paragraph marker strips to the single letter `n`, so it falls in the
      shortest bucket; its delay is the base delay plus 300 ms when breaks are
      enabled, and the base delay alone otherwise. */
  lemma SentinelDelay(wpm: int, newlineEnabled: bool)
    requires wpm > 0
    ensures |Clean(Sentinel)| == 1
    ensures Delay(Sentinel, wpm, newlineEnabled)
        == BaseDelay(wpm) + (if newlineEnabled then 300.0 else 0.0)
  {
    assert Clean(Sentinel) == Clean("n") == "n";
    assert Includes(Sentinel, Sentinel);
  }
}

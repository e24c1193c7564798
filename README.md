# RSVP engine: focus point, pacing and playback

A Dafny model of `RsvpEngine`, the class behind a rapid serial visual
presentation (RSVP) reader. The reader shows a document one token at a time,
in three display regions: left, focus and right. The class does three
things:

- **Focus selector** (`processWord`). It picks the letter or digit of a
  rank chosen from fixed thresholds on the token's stripped length, and
  splits the token around that character. A token without letters or
  digits is focused on its first character, and the paragraph marker
  shows as a single blank.
- **Delay calculator** (`calculateDelay`). It computes how long a token
  stays up: the per-word base delay `60000 / wpm`, times a length factor,
  plus a flat surcharge in milliseconds for each kind of punctuation the
  token contains.
- **Playback state machine.** This is `setWords`, `setWpm`, `play`,
  `pause`, `restart`, `prev`, `next`, `seek`, `updateDisplay`, `run` and
  the timeout callback. It tracks the list, the position, the playing
  flag, one pending timer and the paragraph-break counter. On every
  `breakEvery`-th paragraph break, `run` replaces the delay with a
  3-second pause.

The modules:

- `Text`: the paragraph-break sentinel (the two characters `\` and `n`),
  the letter-or-digit class, stripping, and substring search.
- `Focus`: `processWord` as a specification function `Decompose` and as
  the loop method `ProcessWord`. The method is proved equal to the
  function.
- `Pacing`: `calculateDelay` as `Delay`, and `run`'s cadence override as
  `Schedule`.
- `Engine`: the class `RsvpEngine`. Its fields are the source's fields,
  plus three ghost logs:
  - `frames`: every frame written to the display;
  - `reports`: every `onProgress(percent, index)` call;
  - `completions`: the number of `onComplete` calls.
- `Playback`: what uninterrupted playback does in total. `PlayToEnd`
  plays from a position, lets every timeout fire and logs each token's
  frame once, in order.

How the model treats the environment:

- **Timer.** `setTimeout`/`clearTimeout` is the field `pending` together
  with the delay it was given (`scheduledDelay`). The timer firing is the
  method `Fire`, which runs the callback body.
- **Reading past the list.** When the position is outside the list,
  `words[currentIndex]` is `undefined` in the source, and `processWord` or
  `calculateDelay` then throws a TypeError. Each method that can reach
  that point returns `ok == false` for this outcome, and states the fields
  as the throw leaves them.
- **Synced.** "A timer is pending exactly while playing" is the predicate
  `Synced`. Every operation that completes without a throw keeps it.

Behaviour of the code worth knowing, all of it modelled as written:

- `setWords` installs the start index as given, without clamping it, and
  keeps `paragraphCount`.
- `seek` does not pause: a pending timeout stays pending and resumes play
  from the new position.
- The 13–16 length factor is 1.7, so a 15-letter token at 600 wpm gets
  170 ms (`FifteenLetterDelay`).
- The punctuation surcharge is a sum of flat millisecond amounts, one per
  kind of mark present.
- The paragraph surcharge applies to any token that contains the sentinel.
- The sentinel strips to `n`, so its stripped length is 1
  (`SentinelDelay`).
- `paragraphCount` is bumped on every paragraph break, also when
  `breakEvery` is 0.
- `next` on an empty list sets the position to -1. A later `play` then sets
  `isPlaying` and throws in `run`, so `isPlaying` stays true with no timer
  (`Play` with `ok == false`).

## Model

| member | source | states |
|---|---|---|
| Text.IsAlnum | rsvp-engine.js:106 | the letter-or-digit class `[\p{L}\p{N}]`, exact on U+0000..U+00FF; every stripping and focus lemma is stated over it |
| Text.Clean | rsvp-engine.js:91 | the stripped token is no longer than the token and holds only letters and digits |
| Text.CleanAppend | rsvp-engine.js:127 | stripping distributes over concatenation |
| Text.CleanEmptyIff | rsvp-engine.js:91 | the stripped token is empty exactly when no character of the token is a letter or digit |
| Text.CleanIdempotent | rsvp-engine.js:127 | stripping a stripped token changes nothing |
| Text.Includes | rsvp-engine.js:137-142 | `String.prototype.includes` as a left-to-right scan; `IncludesIff` and `IncludesChar` state what it answers |
| Text.IncludesIff | rsvp-engine.js:137-142 | `includes` answers true exactly when the pattern occurs at some position |
| Text.IncludesChar | rsvp-engine.js:137-141 | for a one-character mark, `includes` is membership |
| Focus.TargetRank | rsvp-engine.js:94-99 | the rank is at most 4, is below the stripped length whenever that is at least 1, and is 0 for lengths 0 and 1 |
| Focus.RankIndex | rsvp-engine.js:105-113 | the search result is -1 or a position inside the token |
| Focus.RankIndexSound | rsvp-engine.js:105-113 | a found position holds a letter or digit with exactly `k` letters or digits before it, so it is the `k`-th character of the stripped token |
| Focus.RankIndexFound | rsvp-engine.js:105-116 | the search fails exactly when the token has no more than `k` letters or digits |
| Focus.FocusIndex | rsvp-engine.js:116 | the focus index is 0 or a position inside the token |
| Focus.Decompose | rsvp-engine.js:80-123 | the split `processWord` returns; `DecomposeSplits`, `FocusOnRankedAlnum` and `NoAlnumFocusFirst` state its properties, and `ProcessWord` is proved equal to it |
| Focus.DecomposeSplits | rsvp-engine.js:82-122 | the sentinel gives `("", " ", "")`; any other token is reassembled exactly by left + focus + right, and a nonempty one has a one-character focus at the focus index |
| Focus.FocusOnRankedAlnum | rsvp-engine.js:94-122 | for a token with a letter or digit, the focus is a letter or digit, and is the one of rank `TargetRank(stripped length)`, with exactly that many of them to its left |
| Focus.NoAlnumFocusFirst | rsvp-engine.js:115-122 | a nonempty token without letters or digits is focused on its first character |
| Focus.ProcessWord | rsvp-engine.js:80-123 | the counting search loop returns exactly the split `Decompose` specifies |
| Pacing.BaseDelay | rsvp-engine.js:126 | the base delay is positive and at most 60000 ms for a positive rate |
| Pacing.Factor | rsvp-engine.js:130-134 | the length factor lies between 1.0 and 2.0 |
| Pacing.FactorMonotone | rsvp-engine.js:130-134 | a longer stripped token never gets a smaller factor |
| Pacing.FactorSteps | rsvp-engine.js:130-134 | from one length to the next, the factor changes exactly at 6, 9, 13 and 17, and only upwards |
| Pacing.Extra | rsvp-engine.js:136-142 | the surcharge is at most 1170 ms, and is 0 exactly when the token has none of the marks and the enabled paragraph marker does not occur |
| Pacing.ExtraAsIncludes | rsvp-engine.js:136-142 | the surcharge equals the source's chain of `includes` tests |
| Pacing.Delay | rsvp-engine.js:125-145 | `calculateDelay`: base delay times length factor plus surcharge; `DelayBounds`, `DelayMonotone`, `DelayStepsAtBoundaries`, `FifteenLetterDelay` and `SentinelDelay` state its properties |
| Pacing.DelayBounds | rsvp-engine.js:125-145 | the delay is at least the base delay and at most twice it plus 1170 ms |
| Pacing.DelayMonotone | rsvp-engine.js:130-144 | with the surcharge fixed, the delay never decreases as the stripped length grows |
| Pacing.DelayStepsAtBoundaries | rsvp-engine.js:130-144 | with the surcharge fixed, one more letter or digit lengthens the delay exactly when the stripped length reaches 6, 9, 13 or 17, and otherwise leaves it unchanged |
| Pacing.Schedule | rsvp-engine.js:152-162 | the delay and paragraph counter `run` leaves for one token; `ScheduleTick`, `CadenceCycle` and `CadenceOfThree` state its properties, and `Run` is proved to schedule exactly it |
| Pacing.ScheduleTick | rsvp-engine.js:152-162 | an ordinary token keeps the counter and its own delay; with no cadence a break only bumps the counter; with a positive cadence the counter stays below it; the delay is the token's own or the 3000 ms pause |
| Pacing.CadenceCycle | rsvp-engine.js:156-161 | with cadence `b` and the counter below it, a break advances the counter modulo `b` and gets the long pause exactly on the `b`-th break |
| Pacing.CadenceOfThree | rsvp-engine.js:156-161 | with cadence 3, the counts 0 and 1 get the normal delay (counter 1, then 2), and count 2 gets 3000 ms with the counter back at 0 |
| Pacing.FifteenLetterDelay | rsvp-engine.js:126-144 | a 15-letter token with no marks gets 170 ms at 600 wpm |
| Pacing.SentinelDelay | rsvp-engine.js:127-142 | the sentinel strips to length 1, and its delay is the base delay plus 300 ms when paragraph breaks are enabled, otherwise the base delay alone |
| Engine.Percent | rsvp-engine.js:75 | the percentage `updateDisplay` reports; `PercentFloor` states its range and that it is the floor of the share |
| Engine.PercentFloor | rsvp-engine.js:75 | the reported percentage is a whole number from 0 to 99, and is the floor of the position's share of the list |
| Engine.RsvpEngine.constructor | rsvp-engine.js:5-18 | the defaults: empty list at position 0, stopped, 600 wpm, paragraph breaks enabled, no cadence, no callbacks |
| Engine.RsvpEngine.SetWords | rsvp-engine.js:20-24 | the list and the start index are installed as given; the frame is shown without a progress report, or the method throws for an index outside a nonempty list; playing state, timer, counter and settings are unchanged |
| Engine.RsvpEngine.SetWpm | rsvp-engine.js:26-28 | the rate becomes the given positive rate and nothing else changes |
| Engine.RsvpEngine.Play | rsvp-engine.js:30-34 | a no-op when already playing or at or past the end; otherwise playing starts, the current token is shown and reported, and exactly one timeout is pending with the scheduled delay and counter; `Synced` is kept |
| Engine.RsvpEngine.Pause | rsvp-engine.js:36-39 | stopped, with no timer pending |
| Engine.RsvpEngine.Restart | rsvp-engine.js:41-46 | stopped with no timer, position 0, counter 0, and the first token shown and reported |
| Engine.RsvpEngine.Prev | rsvp-engine.js:48-52 | stopped with no timer; the position becomes `max(0, i-1)`, so it is never negative and stays 0 at 0; the frame is shown, or the method throws |
| Engine.RsvpEngine.Next | rsvp-engine.js:54-58 | stopped with no timer; the position becomes `min(N-1, i+1)`, so it never exceeds N-1; the frame is shown, or the method throws |
| Engine.RsvpEngine.Seek | rsvp-engine.js:60-63 | the position becomes `min(N-1, max(0, i))`, inside the list when the list is nonempty; the frame is shown and reported; playing state and a pending timer are kept |
| Engine.RsvpEngine.UpdateDisplay | rsvp-engine.js:65-78 | nothing for an empty list; for an in-range position, the split of the current token is written and logged, with a progress report when asked for and a callback is set; otherwise it throws |
| Engine.RsvpEngine.Run | rsvp-engine.js:147-173 | when stopped, nothing happens; when playing, the token is shown and reported and one timeout is scheduled with the delay and counter `Schedule` gives, or it throws for a position outside the list |
| Engine.RsvpEngine.Fire | rsvp-engine.js:164-172 | the position advances by exactly one; at the end, playing stops with no timer, nothing is shown and one completion is recorded when a callback is set; otherwise the next token runs |
| Playback.FireStep | rsvp-engine.js:164-172 | one firing during uninterrupted playback keeps the log of shown frames and reports equal to the tokens played so far |
| Playback.PlayToEnd | rsvp-engine.js:147-173 | playing on from an in-range position shows every remaining token once, in order, and reports each one when a callback is set; it ends at position N, stopped, with no timer and one completion notice |
| Playback.PlayThenPause | rsvp-engine.js:30-39 | `pause` straight after `play` leaves the position unchanged, stopped, with no timer |
| Playback.FourTokenScenario | rsvp-engine.js:147-173 | four tokens with a paragraph break third, played to the end: five frames (the load and four plays, the break shown as a blank), one completion, final position 4 |

## Left out

- The DOM writes of `updateDisplay` (`textContent`) are recorded as the field `display` and the ghost log `frames`.
- `onProgress` and `onComplete` are the flags `hasOnProgress` and `hasOnComplete`, with the ghost logs `reports` and `completions`. Nothing the callbacks themselves do is modelled.
- Real timers and wall-clock time are left out. A timeout is a pending flag, and its firing is an explicit `Fire` step, not concurrency.
- Engine.RsvpEngine.SetWpm: requires an already positive rate. `parseInt` of arbitrary input, which can yield NaN or 0, is not modelled.
- Engine.Percent: the percentage is exact integer arithmetic `(100*i)/N`. JavaScript computes `Math.floor(i/N*100)` in floating point and can come out one lower: for 29 of 100 it gives 28.
- Engine.PercentFloor: its range and floor property are stated of that exact value, not of the floating-point result.
- Pacing.Delay: is exact real arithmetic. IEEE rounding of `60000/wpm` and of the factor product is not modelled.
- Text.IsAlnum: the Unicode classes `\p{L}\p{N}` are written out exactly only for U+0000..U+00FF. Every other character counts as neither a letter nor a digit. No proof depends on this choice.
- Strings are sequences of `char`. The source measures and indexes UTF-16 code units, so characters outside the Basic Multilingual Plane are not modelled.
- `setWords` keeps a reference to the caller's array; the model takes the list as an immutable `seq` value, so a later mutation of that array by the caller is not modelled.
- A token of zero characters gets the focus `undefined` in the source. The display shows that as empty text, and the model writes `""`.
- Playback.PlayToEnd: covers uninterrupted playback only. Operations interleaved with pending timeouts are covered one call at a time, by each method's own contract.
- main.js (DOM event wiring, `localStorage`, themes) is not part of this model.
- pdf-processor.js (PDF text extraction through a foreign library) is not part of this model.
